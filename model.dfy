/**
 * The user entity: its record, the validation rule, the hashing step run before
 * it is stored, and `Sanitize`. The entity's own source file is not part of this
 * model; its behaviour is the one pinned down by its table-driven test.
 */
module Model {
  import opened Wrappers
  import opened Errors

  /** Shortest plaintext password `Validate` accepts when no hash is set yet. */
  const MinPasswordLength: nat := 6

  /** The fields a record with these values fails on, each rule checked on its own. */
  function FieldsFailing(email: string, password: string, encryptedPassword: string): set<Field>
  {
    (if email == "" then {Email} else {}) +
    (if encryptedPassword == "" && |password| < MinPasswordLength then {Password} else {})
  }

  /** A bcrypt digest: whatever the hashing library returns, never empty. */
  type Digest = s: string | s != "" witness "$"

  /** What hashing the plaintext password yields: a digest, or a library fault. */
  datatype HashOutcome = Hashed(digest: Digest) | HashFailed(err: Error)

  /** `model.User`, shared by pointer between the handlers and the store. */
  class User {
    var id: int
    var email: string
    var password: string
    var encryptedPassword: string

    /** `&model.User{Email: email, Password: password}`. */
    constructor (email: string, password: string)
      ensures this.id == 0 && this.email == email && this.password == password
      ensures this.encryptedPassword == ""
    {
      this.id := 0;
      this.email := email;
      this.password := password;
      this.encryptedPassword := "";
    }

    /** `model.TestUser`: a well-formed e-mail, a long enough password, no hash yet. */
    constructor TestUser()
      ensures id == 0 && email == "user@example.org" && password == "password"
      ensures encryptedPassword == ""
    {
      id := 0;
      email := "user@example.org";
      password := "password";
      encryptedPassword := "";
    }

    /**
     * `Validate`: the record is accepted exactly when the e-mail is present and
     * either the password is long enough or a hash is already set; otherwise
     * the error names every failing field.
     */
    function Validate(): (r: Option<Error>)
      reads this
      ensures r == None <==> email != "" && (|password| >= MinPasswordLength || encryptedPassword != "")
      ensures r != None ==> r == Some(Invalid(FieldsFailing(email, password, encryptedPassword)))
    {
      var failed := FieldsFailing(email, password, encryptedPassword);
      if failed == {} then None else Some(Invalid(failed))
    }

    /**
     * `BeforeCreate`: a non-empty plaintext password is replaced in
     * `encryptedPassword` by its hash; an empty one leaves the record as it is.
     * `hash` is what the hashing library returns for `password`.
     */
    method BeforeCreate(hash: HashOutcome) returns (err: Option<Error>)
      modifies this
      ensures id == old(id) && email == old(email) && password == old(password)
      ensures old(password) == "" ==> err == None && encryptedPassword == old(encryptedPassword)
      ensures old(password) != "" && hash.Hashed? ==> err == None && encryptedPassword == hash.digest
      ensures old(password) != "" && hash.HashFailed? ==>
                err == Some(hash.err) && encryptedPassword == old(encryptedPassword)
      ensures old(Validate()) == None && err == None ==> encryptedPassword != ""
    {
      err := None;
      if |password| > 0 {
        match hash
        case HashFailed(e) =>
          err := Some(e);
        case Hashed(d) =>
          encryptedPassword := d;
      }
    }

    /** `Sanitize`: the plaintext password is cleared; nothing else changes. */
    method Sanitize()
      modifies this
      ensures password == ""
      ensures id == old(id) && email == old(email) && encryptedPassword == old(encryptedPassword)
    {
      password := "";
    }
  }

  /** Test case "valid": the fixture passes `Validate`. */
  method ValidateFixture() returns (r: Option<Error>)
    ensures r == None
  {
    var u := new User.TestUser();
    r := u.Validate();
  }

  /** Test case "empty email": the fixture with its e-mail cleared fails on that field alone. */
  method ValidateEmptyEmail() returns (r: Option<Error>)
    ensures r == Some(Invalid({Email}))
  {
    var u := new User.TestUser();
    u.email := "";
    assert FieldsFailing(u.email, u.password, u.encryptedPassword) == {Email};
    r := u.Validate();
  }

  /** Test case "empty password": no password and no hash fails on the password alone. */
  method ValidateEmptyPassword() returns (r: Option<Error>)
    ensures r == Some(Invalid({Password}))
  {
    var u := new User.TestUser();
    u.password := "";
    assert FieldsFailing(u.email, u.password, u.encryptedPassword) == {Password};
    r := u.Validate();
  }

  /**
   * Test case "short password": the fixture with any password shorter than
   * six characters ("1234" in the test) and no hash fails on the password alone.
   */
  method ValidateShortPassword(short: string) returns (r: Option<Error>)
    requires |short| < MinPasswordLength
    ensures r == Some(Invalid({Password}))
  {
    var u := new User.TestUser();
    u.password := short;
    assert FieldsFailing(u.email, u.password, u.encryptedPassword) == {Password};
    r := u.Validate();
  }

  /** Test case "with encrypted password": an empty password is accepted once a hash is set. */
  method ValidateWithEncryptedPassword() returns (r: Option<Error>)
    ensures r == None
  {
    var u := new User.TestUser();
    u.password := "";
    u.encryptedPassword := "encrypted_password";
    r := u.Validate();
  }

  /**
   * `TestUser_BeforeCreate`: on the fixture, a hashing library that succeeds
   * gives no error and a non-empty hash; a library fault is passed through.
   */
  method BeforeCreateFixture(hash: HashOutcome) returns (err: Option<Error>, encrypted: string)
    ensures hash.Hashed? ==> err == None && encrypted != ""
    ensures hash.HashFailed? ==> err == Some(hash.err) && encrypted == ""
  {
    var u := new User.TestUser();
    err := u.BeforeCreate(hash);
    encrypted := u.encryptedPassword;
  }
}
