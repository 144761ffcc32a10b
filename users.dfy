/**
 * The user administration pages: only administrators may create or delete
 * users, usernames are unique, and the user named `admin` cannot be
 * deleted. The `user` table is a map from id to record; new ids come from
 * a counter.
 */
module Users {
  datatype User = User(username: string, isAdmin: bool)

  datatype AdminOutcome = Denied | AlreadyExists | Created(id: nat) | NotFound | Protected | Deleted

  /** The name of the main administrator, whom no one may delete. */
  const MainAdmin: string := "admin"

  predicate HasUsername(users: map<nat, User>, name: string) {
    exists id :: id in users && users[id].username == name
  }

  predicate UniqueUsernames(users: map<nat, User>) {
    forall i, j :: i in users && j in users && users[i].username == users[j].username ==> i == j
  }

  class UserTable {
    var users: map<nat, User>
    var nextId: nat

    ghost predicate Valid()
      reads this
    {
      && (forall id :: id in users ==> id < nextId)
      && UniqueUsernames(users)
    }

    constructor()
      ensures Valid() && users == map[] && nextId == 1
    {
      users := map[];
      nextId := 1;
    }

    /**
     * POST to `admin_usuarios`: a non-administrator is refused, an existing
     * username is refused, and otherwise the user is added under a new id.
     */
    method CreateUser(actorIsAdmin: bool, username: string, isAdmin: bool) returns (o: AdminOutcome)
      requires Valid()
      modifies this
      ensures Valid()
      ensures !actorIsAdmin ==> o == Denied
      ensures actorIsAdmin && HasUsername(old(users), username) ==> o == AlreadyExists
      ensures !o.Created? ==> users == old(users) && nextId == old(nextId)
      ensures o.Created? <==> actorIsAdmin && !HasUsername(old(users), username)
      ensures o.Created? ==>
        && o.id == old(nextId) && o.id !in old(users)
        && users == old(users)[o.id := User(username, isAdmin)]
        && nextId == old(nextId) + 1
    {
      if !actorIsAdmin {
        return Denied;
      }
      if HasUsername(users, username) {
        return AlreadyExists;
      }
      o := Created(nextId);
      users := users[nextId := User(username, isAdmin)];
      nextId := nextId + 1;
    }

    /**
     * `deletar_usuario(id)`: a non-administrator is refused, an unknown id is
     * a 404, the main administrator is kept, and any other user is removed.
     */
    method DeleteUser(actorIsAdmin: bool, id: nat) returns (o: AdminOutcome)
      requires Valid()
      modifies this
      ensures Valid() && nextId == old(nextId)
      ensures !actorIsAdmin ==> o == Denied
      ensures actorIsAdmin && id !in old(users) ==> o == NotFound
      ensures actorIsAdmin && id in old(users) && old(users)[id].username == MainAdmin ==> o == Protected
      ensures o == Deleted <==> actorIsAdmin && id in old(users) && old(users)[id].username != MainAdmin
      ensures o == Deleted ==> users == old(users) - {id}
      ensures o != Deleted ==> users == old(users)
      ensures forall k :: k in old(users) && old(users)[k].username == MainAdmin ==> k in users && users[k] == old(users)[k]
    {
      if !actorIsAdmin {
        return Denied;
      }
      if id !in users {
        return NotFound;
      }
      if users[id].username == MainAdmin {
        return Protected;
      }
      users := users - {id};
      o := Deleted;
    }
  }
}
