/** The Redux user-list slice, src/store/slices/userSlice.js: the same CRUD by
    id as the menu slice, over the users of the admin back-office. */
module UserSlice {
  import opened Wrappers
  import opened ListOps

  /** A user record as the admin user-management screen shows it; the slice
      reads only `id`. */
  datatype User = User(id: string, displayName: string, email: string, role: string, status: string)

  function UserId(u: User): string { u.id }

  /** The slice's state: `{ users, loading, error }`. */
  class UserStore {
    var users: seq<User>
    var loading: bool
    var error: Option<string>

    /** `initialState`: no users, not loading, no error. */
    constructor ()
      ensures users == [] && !loading && error == None
    {
      users := [];
      loading := false;
      error := None;
    }

    /** `setUsers`: the list is replaced wholesale and the error cleared. */
    method SetUsers(payload: seq<User>)
      modifies this
      ensures users == payload && error == None && loading == old(loading)
    {
      users := payload;
      error := None;
    }

    /** `addUser`: appended at the end, with no check on the id; error cleared. */
    method AddUser(user: User)
      modifies this
      ensures users == old(users) + [user] && error == None && loading == old(loading)
    {
      users := users + [user];
      error := None;
    }

    /** `updateUser`: the first user with the payload's id is replaced in place,
        the list is untouched when no id matches; the error is cleared in both cases. */
    method UpdateUser(user: User)
      modifies this
      ensures users == ReplaceFirst(old(users), UserId, user)
      ensures |users| == |old(users)|
      ensures !HasKey(old(users), UserId, user.id) ==> users == old(users)
      ensures DistinctKeys(old(users), UserId) ==> DistinctKeys(users, UserId)
      ensures error == None && loading == old(loading)
    {
      ReplaceFirstKeepsKeys(users, UserId, user);
      var index := FindIndex(users, UserId, user.id);
      if index != -1 {
        users := users[index := user];
      }
      error := None;
    }

    /** `deleteUser`: every user with the id goes, the rest keep their order; error cleared. */
    method DeleteUser(id: string)
      modifies this
      ensures users == RemoveAll(old(users), UserId, id)
      ensures !HasKey(users, UserId, id)
      ensures DistinctKeys(old(users), UserId) ==> DistinctKeys(users, UserId)
      ensures error == None && loading == old(loading)
    {
      if DistinctKeys(users, UserId) {
        RemoveAllKeepsDistinct(users, UserId, id);
      }
      users := RemoveAll(users, UserId, id);
      error := None;
    }

    /** `setLoading`: only `loading` changes. */
    method SetLoading(value: bool)
      modifies this
      ensures loading == value && users == old(users) && error == old(error)
    {
      loading := value;
    }

    /** `setError`: only `error` changes. */
    method SetError(value: Option<string>)
      modifies this
      ensures error == value && users == old(users) && loading == old(loading)
    {
      error := value;
    }
  }
}
