/**
 * Whole request sequences against a fresh in-memory store, and the two
 * places where a handler carries on after writing an error.
 */
module Scenarios {
  import opened Wrappers
  import opened Errors
  import opened Model
  import opened TestStore
  import opened ApiServer

  /**
   * Register `a@b.com` / `secret1`, log in with the same credentials, then ask
   * who is logged in with and without the session cookie. The whoami body
   * shows an empty password because register sanitized the very record the
   * store keeps. Without a cookie, the middleware as written panics after its
   * 401; returning there gives the plain 401.
   */
  method RegisterLoginWhoAmI(digest: Digest, comparePassword: (string, string) -> bool)
    returns (created: Reply, loggedIn: Reply, me: Reply, anonymous: Reply, anonymousAsWritten: AuthOutcome)
    requires comparePassword(digest, "secret1")
    ensures created == Reply(Some(StatusCreated), [UserJson(1, "a@b.com", "")], None)
    ensures loggedIn == Reply(Some(StatusOK), [], Some(Session(map[UserIdKey := 1])))
    ensures me == Reply(Some(StatusOK), [UserJson(1, "a@b.com", "")], None)
    ensures anonymous == ErrorReply(StatusUnauthorized, NotAuthenticated)
    ensures anonymousAsWritten == Panicked(ErrorReply(StatusUnauthorized, NotAuthenticated))
  {
    var repo := new UserRepository();
    var credentials := Credentials("a@b.com", "secret1");
    assert FieldsFailing(credentials.email, credentials.password, "") == {};
    created := HandleUserCreate(repo, Ok(credentials), Hashed(digest));
    assert repo.users.Keys == {1};
    var noCookie := Session(map[]);
    loggedIn := HandleSessionCreateFixed(repo, Ok(credentials), comparePassword, Fetched(noCookie, None), None);
    assert !Refuses(repo, credentials, comparePassword) by {
      assert repo.users[1].email == credentials.email;
    }
    assert LoggedIn(noCookie, 1) == Session(map[UserIdKey := 1]);
    me := ServeWhoAmIFixed(repo, Fetched(loggedIn.cookie.value, None));
    anonymous := ServeWhoAmIFixed(repo, Fetched(noCookie, None));
    anonymousAsWritten := AuthenticateUser(repo, Fetched(noCookie, None));
  }

  /**
   * Registering the same e-mail twice: the in-memory store does not check
   * that e-mails are unique, so the second request is also created, with id 2.
   */
  method RegisterSameEmailTwice(first: Digest, second: Digest) returns (r1: Reply, r2: Reply, stored: nat)
    ensures r1 == Reply(Some(StatusCreated), [UserJson(1, "a@b.com", "")], None)
    ensures r2 == Reply(Some(StatusCreated), [UserJson(2, "a@b.com", "")], None)
    ensures stored == 2
  {
    var repo := new UserRepository();
    var credentials := Credentials("a@b.com", "secret1");
    assert FieldsFailing(credentials.email, credentials.password, "") == {};
    r1 := HandleUserCreate(repo, Ok(credentials), Hashed(first));
    r2 := HandleUserCreate(repo, Ok(credentials), Hashed(second));
    stored := |repo.users|;
  }

  /**
   * Login as written, when the credentials match and the session store then
   * fails both to load and to save the session: the handler carries on after
   * its first 500, so both errors are encoded into one 500 response.
   */
  method LoginGetAndSaveFaultsAsWritten(repo: UserRepository, id: int, c: Credentials,
                                        comparePassword: (string, string) -> bool,
                                        s: Session, getErr: Error, saveErr: Error)
    returns (reply: Reply)
    requires Accepts(repo, id, c, comparePassword)
    requires forall k :: k in repo.users && repo.users[k].email == c.email ==> Accepts(repo, k, c, comparePassword)
    ensures reply == Reply(Some(StatusInternalServerError), [ErrorJson(getErr), ErrorJson(saveErr)], None)
  {
    reply := HandleSessionCreate(repo, Ok(c), comparePassword, Fetched(s, Some(getErr)), Some(saveErr));
    assert !Refuses(repo, c, comparePassword) by {
      assert Accepts(repo, id, c, comparePassword);
    }
  }
}
