// The user repository and the authorisation service with auto-login (5.py).
//
// The JSON file behind the repository is the in-memory sequence `items`, in
// file order; the session file is the slot `session` (None when there is no
// file).  A stored record and the `User` it deserialises to are one value.

module UserStore {
  import opened Wrappers

  /** A user record, 5.py:10-17. */
  datatype User = User(
    id: int,
    name: string,
    login: string,
    password: string,
    email: Option<string>,
    address: Option<string>)

  /** What `add` and `update` end in: success, or the `ValueError` they raise. */
  datatype Outcome = Done | IdTaken(id: int) | IdMissing(id: int)

  // ---------------------------------------------------------------------------
  // Reference definitions
  // ---------------------------------------------------------------------------

  /** Some record carries `id`. */
  predicate HasId(items: seq<User>, id: int)
  {
    exists i :: 0 <= i < |items| && items[i].id == id
  }

  /** No two records share an id. */
  predicate UniqueIds(items: seq<User>)
  {
    forall i, j :: 0 <= i < j < |items| ==> items[i].id != items[j].id
  }

  /** `i` is the first index whose record satisfies the test `items[i].id == id`. */
  predicate FirstIdAt(items: seq<User>, id: int, i: int)
  {
    0 <= i < |items| && items[i].id == id && forall j :: 0 <= j < i ==> items[j].id != id
  }

  /** The first record with `id`, scanning from the front. */
  function FindId(items: seq<User>, id: int): (r: Option<User>)
    ensures r.Some? ==> r.value in items && r.value.id == id
  {
    if items == [] then None
    else if items[0].id == id then Some(items[0])
    else FindId(items[1..], id)
  }

  /** The first record with `login`, scanning from the front. */
  function FindLogin(items: seq<User>, login: string): (r: Option<User>)
    ensures r.Some? ==> r.value in items && r.value.login == login
  {
    if items == [] then None
    else if items[0].login == login then Some(items[0])
    else FindLogin(items[1..], login)
  }

  /** `get_by_id` finds the first record with the id, and nothing only when there is none. */
  lemma {:induction false} FindIdFirst(items: seq<User>, id: int)
    ensures FindId(items, id).None? <==> !HasId(items, id)
    ensures FindId(items, id).Some? ==>
      exists i :: FirstIdAt(items, id, i) && items[i] == FindId(items, id).value
    decreases |items|
  {
    if items != [] && items[0].id != id {
      FindIdFirst(items[1..], id);
      if FindId(items, id).Some? {
        var i :| FirstIdAt(items[1..], id, i) && items[1..][i] == FindId(items, id).value;
        assert FirstIdAt(items, id, i + 1);
      } else {
        forall i | 0 <= i < |items| ensures items[i].id != id {
          if i > 0 { assert items[i] == items[1..][i - 1]; }
        }
      }
    } else if items != [] {
      assert FirstIdAt(items, id, 0);
    }
  }

  /** `get_by_login` finds the first record with the login, and nothing only when there is none. */
  lemma {:induction false} FindLoginFirst(items: seq<User>, login: string)
    ensures FindLogin(items, login).None? <==> forall i :: 0 <= i < |items| ==> items[i].login != login
    ensures FindLogin(items, login).Some? ==>
      exists i :: 0 <= i < |items| && items[i] == FindLogin(items, login).value && items[i].login == login
        && forall j :: 0 <= j < i ==> items[j].login != login
    decreases |items|
  {
    if items != [] && items[0].login != login {
      FindLoginFirst(items[1..], login);
      if FindLogin(items, login).Some? {
        var i :| 0 <= i < |items[1..]| && items[1..][i] == FindLogin(items, login).value && items[1..][i].login == login
          && forall j :: 0 <= j < i ==> items[1..][j].login != login;
        assert forall j :: 0 <= j < i + 1 ==> items[j].login != login by {
          forall j | 0 <= j < i + 1 ensures items[j].login != login {
            if j > 0 { assert items[j] == items[1..][j - 1]; }
          }
        }
        assert items[i + 1] == items[1..][i];
      } else {
        forall i | 0 <= i < |items| ensures items[i].login != login {
          if i > 0 { assert items[i] == items[1..][i - 1]; }
        }
      }
    }
  }

  /** The records that `delete` keeps: every one whose id differs, in order (5.py:79). */
  function RemoveId(items: seq<User>, id: int): (r: seq<User>)
    ensures |r| <= |items|
  {
    if items == [] then []
    else if items[0].id == id then RemoveId(items[1..], id)
    else [items[0]] + RemoveId(items[1..], id)
  }

  /** `delete` keeps exactly the records with another id, and removes all copies of this one. */
  lemma {:induction false} RemoveIdMembers(items: seq<User>, id: int)
    ensures forall u :: u in RemoveId(items, id) <==> u in items && u.id != id
    decreases |items|
  {
    if items != [] {
      RemoveIdMembers(items[1..], id);
      assert items == [items[0]] + items[1..];
    }
  }

  /** `delete` of an absent id leaves the records as they are. */
  lemma {:induction false} RemoveAbsent(items: seq<User>, id: int)
    requires !HasId(items, id)
    ensures RemoveId(items, id) == items
    decreases |items|
  {
    if items != [] {
      assert !HasId(items[1..], id) by {
        forall i | 0 <= i < |items[1..]| ensures items[1..][i].id != id {
          assert items[1..][i] == items[i + 1];
        }
      }
      RemoveAbsent(items[1..], id);
      assert items == [items[0]] + items[1..];
    }
  }

  /** `delete` of a present id shortens the list, which is what triggers the save (5.py:80-81). */
  lemma {:induction false} RemovePresentShrinks(items: seq<User>, id: int)
    requires HasId(items, id)
    ensures |RemoveId(items, id)| < |items|
    decreases |items|
  {
    if items[0].id != id {
      assert HasId(items[1..], id) by {
        var i :| 0 <= i < |items| && items[i].id == id;
        assert items[1..][i - 1] == items[i];
      }
      RemovePresentShrinks(items[1..], id);
    }
  }

  /** Filtering commutes with concatenation, so the kept records stay in their order. */
  lemma {:induction false} RemoveIdConcat(a: seq<User>, b: seq<User>, id: int)
    ensures RemoveId(a + b, id) == RemoveId(a, id) + RemoveId(b, id)
    decreases |a|
  {
    if a != [] {
      assert (a + b)[1..] == a[1..] + b;
      RemoveIdConcat(a[1..], b, id);
    } else {
      assert a + b == b;
    }
  }

  // ---------------------------------------------------------------------------
  // Uniqueness of ids is kept by add, update and delete (5.py:63-81)
  // ---------------------------------------------------------------------------

  lemma UniqueAfterAppend(items: seq<User>, item: User)
    requires UniqueIds(items) && !HasId(items, item.id)
    ensures UniqueIds(items + [item])
  {
    forall i, j | 0 <= i < j < |items + [item]| ensures (items + [item])[i].id != (items + [item])[j].id {
      if j == |items| {
        assert (items + [item])[i] == items[i];
      }
    }
  }

  lemma UniqueAfterReplace(items: seq<User>, i: int, item: User)
    requires UniqueIds(items) && 0 <= i < |items| && items[i].id == item.id
    ensures UniqueIds(items[i := item])
  {
  }

  lemma {:induction false} UniqueAfterRemove(items: seq<User>, id: int)
    requires UniqueIds(items)
    ensures UniqueIds(RemoveId(items, id))
    decreases |items|
  {
    if items != [] {
      assert UniqueIds(items[1..]);
      UniqueAfterRemove(items[1..], id);
      RemoveIdMembers(items[1..], id);
      var rest := RemoveId(items[1..], id);
      if items[0].id != id {
        forall i, j | 0 <= i < j < |[items[0]] + rest|
          ensures ([items[0]] + rest)[i].id != ([items[0]] + rest)[j].id
        {
          if i == 0 {
            var u := rest[j - 1];
            assert u in items[1..];
            var k :| 0 <= k < |items[1..]| && items[1..][k] == u;
            assert items[k + 1] == u;
          }
        }
      }
    }
  }

  // ---------------------------------------------------------------------------
  // The repository, 5.py:31-92
  // ---------------------------------------------------------------------------

  class UserRepository {
    var items: seq<User>

    /** `_load`: the repository starts from the stored records ([] when there is no file). */
    constructor (stored: seq<User>)
      ensures items == stored
    {
      items := stored;
    }

    /** `get_all`: every record, in stored order. */
    method GetAll() returns (r: seq<User>)
      ensures |r| == |items|
      ensures forall i :: 0 <= i < |r| ==> r[i] == items[i]
    {
      r := [];
      var i := 0;
      while i < |items|
        invariant 0 <= i <= |items|
        invariant r == items[..i]
      {
        r := r + [items[i]];
        i := i + 1;
      }
    }

    /** `get_by_id`: a scan that returns at the first record with the id. */
    method GetById(id: int) returns (r: Option<User>)
      ensures r == FindId(items, id)
    {
      var i := 0;
      while i < |items|
        invariant 0 <= i <= |items|
        invariant FindId(items, id) == FindId(items[i..], id)
      {
        assert items[i..][1..] == items[i + 1..];
        if items[i].id == id {
          return Some(items[i]);
        }
        i := i + 1;
      }
      r := None;
    }

    /** `get_by_login`: a scan that returns at the first record with the login. */
    method GetByLogin(login: string) returns (r: Option<User>)
      ensures r == FindLogin(items, login)
    {
      var i := 0;
      while i < |items|
        invariant 0 <= i <= |items|
        invariant FindLogin(items, login) == FindLogin(items[i..], login)
      {
        assert items[i..][1..] == items[i + 1..];
        if items[i].login == login {
          return Some(items[i]);
        }
        i := i + 1;
      }
      r := None;
    }

    /** `add`: refused when the id is taken; otherwise the record goes at the end. */
    method Add(item: User) returns (r: Outcome)
      modifies this
      ensures HasId(old(items), item.id) ==> r == IdTaken(item.id) && items == old(items)
      ensures !HasId(old(items), item.id) ==> r == Done && items == old(items) + [item]
      ensures UniqueIds(old(items)) ==> UniqueIds(items)
    {
      var existing := GetById(item.id);
      FindIdFirst(items, item.id);
      if existing.Some? {
        return IdTaken(item.id);
      }
      if UniqueIds(items) {
        UniqueAfterAppend(items, item);
      }
      items := items + [item];
      r := Done;
    }

    /** `update`: the first record with the id is replaced in place; refused when there is none. */
    method Update(item: User) returns (r: Outcome)
      modifies this
      ensures !HasId(old(items), item.id) ==> r == IdMissing(item.id) && items == old(items)
      ensures HasId(old(items), item.id) ==>
        r == Done && exists i :: FirstIdAt(old(items), item.id, i) && items == old(items)[i := item]
      ensures |items| == |old(items)|
      ensures UniqueIds(old(items)) ==> UniqueIds(items)
    {
      var i := 0;
      while i < |items|
        invariant 0 <= i <= |items|
        invariant forall j :: 0 <= j < i ==> items[j].id != item.id
      {
        if items[i].id == item.id {
          assert FirstIdAt(items, item.id, i);
          if UniqueIds(items) {
            UniqueAfterReplace(items, i, item);
          }
          items := items[i := item];
          return Done;
        }
        i := i + 1;
      }
      r := IdMissing(item.id);
    }

    /** `delete`: every record with the item's id goes, the rest keep their order. */
    method Delete(item: User)
      modifies this
      ensures items == RemoveId(old(items), item.id)
      ensures UniqueIds(old(items)) ==> UniqueIds(items)
    {
      if UniqueIds(items) {
        UniqueAfterRemove(items, item.id);
      }
      items := RemoveId(items, item.id);
    }
  }

  // ---------------------------------------------------------------------------
  // The authorisation service, 5.py:104-143
  // ---------------------------------------------------------------------------

  class AuthService {
    const repository: UserRepository
    var currentUser: Option<User>
    var session: Option<string>  // the login in the session file; None when there is no file

    /** A signed-in user is always the one whose login the session holds. */
    ghost predicate Valid()
      reads this
    {
      currentUser.Some? ==> session == Some(currentUser.value.login)
    }

    /**
     * `__init__` with `_load_session`: `stored` is the login read from the
     * session file, if any.  A non-empty login that the repository knows
     * signs that user in; anything else leaves nobody signed in.
     */
    constructor (repository: UserRepository, stored: Option<string>)
      ensures this.repository == repository && session == stored && Valid()
      ensures currentUser ==
        if stored.Some? && stored.value != "" then FindLogin(repository.items, stored.value) else None
    {
      this.repository := repository;
      session := stored;
      currentUser := None;
      new;
      if stored.Some? && stored.value != "" {
        var user := repository.GetByLogin(stored.value);
        FindLoginFirst(repository.items, stored.value);
        currentUser := user;
      }
    }

    /** `_save_session`: the file holds the current user's login, or is removed. */
    method SaveSession()
      modifies this`session
      ensures session == if currentUser.Some? then Some(currentUser.value.login) else None
      ensures Valid()
    {
      if currentUser.Some? {
        session := Some(currentUser.value.login);
      } else {
        session := None;
      }
    }

    /** `sign_in`: the user becomes the current one, and the session remembers its login. */
    method SignIn(user: User)
      modifies this
      ensures currentUser == Some(user) && session == Some(user.login) && Valid()
    {
      currentUser := Some(user);
      SaveSession();
    }

    /** `sign_out`: only signs out when the given user has the current user's id. */
    method SignOut(user: User)
      requires Valid()
      modifies this
      ensures Valid()
      ensures old(currentUser).Some? && old(currentUser).value.id == user.id ==>
        currentUser == None && session == None
      ensures !(old(currentUser).Some? && old(currentUser).value.id == user.id) ==>
        currentUser == old(currentUser) && session == old(session)
    {
      if currentUser.Some? && currentUser.value.id == user.id {
        currentUser := None;
        SaveSession();
      }
    }

    /** `is_authorized`: somebody is signed in. */
    method IsAuthorized() returns (r: bool)
      ensures r <==> currentUser.Some?
    {
      r := currentUser.Some?;
    }

    /** `current_user`. */
    method CurrentUser() returns (r: Option<User>)
      ensures r == currentUser
    {
      r := currentUser;
    }
  }

  /** Signing a user in and then out with the same id leaves nobody signed in and no session. */
  method SignInOut(auth: AuthService, user: User, other: User)
    requires other.id == user.id
    modifies auth
    ensures auth.currentUser == None && auth.session == None
  {
    auth.SignIn(user);
    auth.SignOut(other);
  }

  /** A restarted service signs the same user back in from the saved session. */
  method AutoLogin(repository: UserRepository, user: User) returns (again: AuthService)
    requires FindLogin(repository.items, user.login) == Some(user) && user.login != ""
    ensures again.currentUser == Some(user)
  {
    var auth := new AuthService(repository, None);
    auth.SignIn(user);
    again := new AuthService(repository, auth.session);
  }
}
