/**
 * The in-memory backend of `store.UserRepository`: a map from id to the user
 * record pointers handed to `Create`.
 */
module TestStore {
  import opened Wrappers
  import opened Errors
  import opened Model

  /** The next key a `range` over the map yields: any key not yet visited. */
  method NextKey(rest: set<int>) returns (key: int)
    requires rest != {}
    ensures key in rest
  {
    NoMemberIsEmpty(rest);
    key :| key in rest;
  }

  /** A set with no member is the empty set. */
  lemma NoMemberIsEmpty(s: set<int>)
    ensures (forall x :: x !in s) ==> s == {}
  {
    if forall x :: x !in s {
      assert s == {};
    }
  }

  class UserRepository {
    var users: map<int, User>

    /**
     * The store's invariant: the ids in use are exactly 1..|users| and every
     * stored record carries the id it is stored under (so no record is stored
     * twice).
     */
    ghost predicate Valid()
      reads this, users.Values
    {
      (forall id :: id in users <==> 1 <= id <= |users|) &&
      (forall id :: id in users ==> users[id].id == id)
    }

    /** `teststore.New().User()`: an empty repository. */
    constructor ()
      ensures users == map[] && Valid()
    {
      users := map[];
    }

    /**
     * `Create`: `Validate`, then `BeforeCreate`; either error is returned with
     * nothing stored and the id untouched. On success the record gets id
     * |users| + 1 and is stored under it. The invariant is kept as long as the
     * record is not one that is already stored.
     */
    method Create(u: User, hash: HashOutcome) returns (err: Option<Error>)
      modifies this, u
      ensures old(u.Validate()) != None ==>
                err == old(u.Validate()) && users == old(users) && u.id == old(u.id) &&
                u.encryptedPassword == old(u.encryptedPassword)
      ensures old(u.Validate()) == None && old(u.password) != "" && hash.HashFailed? ==>
                err == Some(hash.err) && users == old(users) && u.id == old(u.id) &&
                u.encryptedPassword == old(u.encryptedPassword)
      ensures old(u.Validate()) == None && (old(u.password) == "" || hash.Hashed?) ==>
                err == None && u.id == |old(users)| + 1 && users == old(users)[u.id := u] &&
                u.encryptedPassword == (if old(u.password) == "" then old(u.encryptedPassword) else hash.digest)
      ensures err == None ==> u.encryptedPassword != ""
      ensures u.email == old(u.email) && u.password == old(u.password)
      ensures old(Valid()) && u !in old(users.Values) ==>
                Valid() && (err == None ==> |users| == |old(users)| + 1)
    {
      err := u.Validate();
      if err != None {
        return;
      }
      err := u.BeforeCreate(hash);
      if err != None {
        return;
      }
      ghost var before := users;
      u.id := |users| + 1;
      users := users[u.id := u];
      forall id | id in before
        ensures before[id] in before.Values
      {
      }
    }

    /**
     * `GetAll`: every stored record, in the map's (unspecified) iteration
     * order; never an error. With the invariant in force each record appears
     * exactly once.
     */
    method GetAll() returns (all: seq<User>, err: Option<Error>)
      ensures err == None
      ensures |all| == |users|
      ensures forall id :: id in users ==> users[id] in all
      ensures forall i :: 0 <= i < |all| ==> all[i] in users.Values
      ensures Valid() ==> forall i, j :: 0 <= i < j < |all| ==> all[i] != all[j]
    {
      all := [];
      var rest := users.Keys;
      ghost var order: seq<int> := [];
      while rest != {}
        invariant rest <= users.Keys
        invariant |all| == |order| && |all| + |rest| == |users|
        invariant forall i :: 0 <= i < |order| ==> order[i] in users && order[i] !in rest && all[i] == users[order[i]]
        invariant forall id :: id in users && id !in rest ==> id in order
        invariant forall i, j :: 0 <= i < j < |order| ==> order[i] != order[j]
        decreases rest
      {
        var key := NextKey(rest);
        all := all + [users[key]];
        order := order + [key];
        rest := rest - {key};
      }
      err := None;
      forall id | id in users
        ensures users[id] in all
      {
        var i :| 0 <= i < |order| && order[i] == id;
        assert all[i] == users[id];
      }
    }

    /**
     * `FindByEmail`: a stored record with that e-mail if there is one (which
     * one, among several, is up to the map's iteration order), otherwise
     * `ErrorRecordNotFound`.
     */
    method FindByEmail(email: string) returns (r: Result<User, Error>)
      ensures r.Ok? ==> exists id :: id in users && users[id] == r.value && r.value.email == email
      ensures r.Err? ==> r.error == RecordNotFound && forall id :: id in users ==> users[id].email != email
    {
      var rest := users.Keys;
      while rest != {}
        invariant rest <= users.Keys
        invariant forall id :: id in users && id !in rest ==> users[id].email != email
        decreases rest
      {
        var key := NextKey(rest);
        if users[key].email == email {
          return Ok(users[key]);
        }
        rest := rest - {key};
      }
      return Err(RecordNotFound);
    }

    /**
     * `Find`: the record stored under `id`, otherwise `ErrorRecordNotFound`;
     * with the invariant in force, found exactly for 1..|users| and carrying
     * that id.
     */
    method Find(id: int) returns (r: Result<User, Error>)
      ensures r.Ok? <==> id in users
      ensures r.Ok? ==> r.value == users[id]
      ensures r.Err? ==> r.error == RecordNotFound
      ensures Valid() ==> (r.Ok? <==> 1 <= id <= |users|) && (r.Ok? ==> r.value.id == id)
    {
      if id !in users {
        return Err(RecordNotFound);
      }
      return Ok(users[id]);
    }
  }
}
