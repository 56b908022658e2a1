/** Team management (backend/app/routers/staff.py): an owner invites staff
    members into their own workspace; anyone lists the workspace's staff. */
module Staff {
  import opened Common
  import opened Models
  import opened Database

  /** The invitation form (`StaffInvite`). */
  datatype Invite = Invite(email: string, password: string)

  const OWNERS_ONLY := "Only owners can invite staff"
  const USER_EXISTS := "User already exists"

  /** invite_staff: only an owner may invite, and only an e-mail no user holds;
      the new user is staff of the inviter's workspace, password stored hashed.
      The answer carries the invited e-mail. `hash` stands for `get_password_hash`. */
  function InviteStaffSpec(db: Db, caller: User, invite: Invite, hash: string -> string): (r: Transition<string>)
    ensures r.queued == []
    ensures r.response.Forbidden? <==> caller.role != Owner
    ensures r.response.Forbidden? ==> r.response.detail == OWNERS_ONLY
    ensures r.response.BadRequest? <==>
      caller.role == Owner && exists u :: u in db.users && u.email == invite.email
    ensures r.response.BadRequest? ==> r.response.detail == USER_EXISTS
    ensures r.response.Ok? || r.response.Forbidden? || r.response.BadRequest?
    ensures !r.response.Ok? ==> r.db == db
    ensures r.response.Ok? ==>
      && r.response.value == invite.email
      && r.db == db.(users := r.db.users, nextId := r.db.nextId)
      && |r.db.users| == |db.users| + 1
      && r.db.users[..|db.users|] == db.users
      && r.db.users[|db.users|] == User(r.db.users[|db.users|].id, invite.email, hash(invite.password), Staff, caller.workspaceId)
    ensures db.Valid() ==> r.db.Valid()
  {
    if caller.role != Owner then
      Transition(db, Forbidden(OWNERS_ONLY), [])
    else if UserByEmail(db.users, invite.email).Some? then
      Transition(db, BadRequest(USER_EXISTS), [])
    else
      var u := User(db.nextId, invite.email, hash(invite.password), Staff, caller.workspaceId);
      var db' := db.(users := db.users + [u], nextId := db.nextId + 1);
      assert db.Valid() ==> db'.Valid() by {
        if db.Valid() {
          forall i, j | 0 <= i < j < |db'.users| ensures db'.users[i].email != db'.users[j].email {
            if j == |db.users| {
              assert db'.users[i] in db.users;
            }
          }
        }
      }
      Transition(db', Ok(invite.email), [])
  }

  /** Whatever the caller, a second invitation of the same e-mail is refused
      once the first has succeeded. */
  lemma {:induction false} InviteTwice(db: Db, caller: User, invite: Invite, again: Invite, hash: string -> string)
    requires InviteStaffSpec(db, caller, invite, hash).response.Ok?
    requires again.email == invite.email
    ensures InviteStaffSpec(InviteStaffSpec(db, caller, invite, hash).db, caller, again, hash).response == BadRequest(USER_EXISTS)
  {
    var once := InviteStaffSpec(db, caller, invite, hash);
    assert once.db.users[|db.users|] in once.db.users;
  }

  /** invite_staff on a store. */
  method InviteStaff(store: Store, caller: User, invite: Invite, hash: string -> string) returns (r: Response<string>)
    modifies store
    ensures Transition(store.Snapshot(), r, []) == InviteStaffSpec(old(store.Snapshot()), caller, invite, hash)
    ensures old(store.Valid()) ==> store.Valid()
  {
    if caller.role != Owner {
      return Forbidden(OWNERS_ONLY);
    }
    var existing := UserByEmail(store.users, invite.email);
    if existing.Some? {
      return BadRequest(USER_EXISTS);
    }
    var id := store.NewId();
    store.users := store.users + [User(id, invite.email, hash(invite.password), Staff, caller.workspaceId)];
    r := Ok(invite.email);
  }

  /** list_staff: exactly the staff users of the caller's workspace; owners are not listed. */
  function ListStaff(users: seq<User>, caller: User): (r: seq<User>)
    ensures forall u | u in r :: u in users && u.workspaceId == caller.workspaceId && u.role == Staff
    ensures forall u | u in users && u.workspaceId == caller.workspaceId && u.role == Staff :: u in r
  {
    Filter(users, (u: User) => u.workspaceId == caller.workspaceId && u.role == Staff)
  }
}
