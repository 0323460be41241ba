/**
 * Staff accounts (backend/users/models.py): the `UserAccount` record and its manager's
 * `create_user` and `create_superuser`. The account table is a sequence of account objects;
 * email is the login key and unique.
 *
 * Password hashing (`set_password`) is not modelled. Strings are compared character by character;
 * case folding is ASCII only.
 */
module UserAccounts {
  import opened Common

  // ---------------------------------------------------------------------------------------------
  // Email normalisation
  // ---------------------------------------------------------------------------------------------

  predicate IsUpper(c: char) {
    'A' <= c <= 'Z'
  }

  /** `str.lower()` on one character (ASCII letters). */
  function LowerChar(c: char): (d: char)
    ensures !IsUpper(d)
    ensures IsUpper(c) ==> d as int == c as int + 32
    ensures !IsUpper(c) ==> d == c
  {
    if IsUpper(c) then (c as int + 32) as char else c
  }

  /** `str.lower()`. */
  function Lower(s: string): (r: string)
    ensures |r| == |s|
    ensures forall i | 0 <= i < |s| :: r[i] == LowerChar(s[i])
  {
    seq(|s|, i requires 0 <= i < |s| => LowerChar(s[i]))
  }

  lemma LowerIdempotent(s: string)
    ensures Lower(Lower(s)) == Lower(s)
  {
  }

  /** Python's `str.isspace()`: the ASCII whitespace and separator controls 9-13 and 28-32, and the
      Unicode spaces and line separators. */
  predicate IsSpace(c: char) {
    || (9 as char <= c <= 13 as char) || (28 as char <= c <= 32 as char)
    || c == 0x85 as char || c == 0xA0 as char || c == 0x1680 as char
    || (0x2000 as char <= c <= 0x200A as char) || c == 0x2028 as char || c == 0x2029 as char
    || c == 0x202F as char || c == 0x205F as char || c == 0x3000 as char
  }

  /** `s` with its leading whitespace removed. */
  function TrimStart(s: string): (r: string)
    ensures |r| <= |s| && r == s[|s| - |r|..]
    ensures forall i | 0 <= i < |s| - |r| :: IsSpace(s[i])
    ensures r == [] || !IsSpace(r[0])
  {
    if s != [] && IsSpace(s[0]) then TrimStart(s[1..]) else s
  }

  /** `s` with its trailing whitespace removed. */
  function TrimEnd(s: string): (r: string)
    ensures |r| <= |s| && r == s[..|r|]
    ensures forall i | |r| <= i < |s| :: IsSpace(s[i])
    ensures r == [] || !IsSpace(r[|r| - 1])
  {
    if s != [] && IsSpace(s[|s| - 1]) then TrimEnd(s[..|s| - 1]) else s
  }

  /** `str.strip()`. */
  function Strip(s: string): string {
    TrimEnd(TrimStart(s))
  }

  /** A string with no whitespace at either end is its own `strip()`. */
  lemma StripUntrimmed(s: string)
    requires s == [] || (!IsSpace(s[0]) && !IsSpace(s[|s| - 1]))
    ensures Strip(s) == s
  {
  }

  /**
   * The email `create_user` stores: Django's `normalize_email` (when there is an '@', the
   * stripped text with its domain lower-cased; otherwise the text as given), then `.lower()`.
   * The domain lower-casing is subsumed by the final `.lower()`.
   */
  function StoredEmail(email: string): (r: string)
    ensures '@' !in email ==> r == Lower(email)
  {
    if '@' in email then Lower(Strip(email)) else Lower(email)
  }

  /** An address with no surrounding whitespace is stored lower-cased, whether or not it has an
      '@'. */
  lemma StoredEmailOfClean(email: string)
    requires email == [] || (!IsSpace(email[0]) && !IsSpace(email[|email| - 1]))
    ensures StoredEmail(email) == Lower(email)
  {
    StripUntrimmed(email);
  }

  /** Emails differing only in letter case are stored alike, so the second is a duplicate. */
  lemma StoredEmailIgnoresCase(a: string, b: string)
    requires Lower(a) == Lower(b)
    ensures StoredEmail(a) == StoredEmail(b)
  {
    assert '@' in a <==> '@' in b by {
      forall i | 0 <= i < |a|
        ensures a[i] == '@' <==> b[i] == '@'
      {
        assert LowerChar(a[i]) == LowerChar(b[i]);
      }
    }
    if '@' in a {
      LowerStripCommutes(a);
      LowerStripCommutes(b);
    }
  }

  /** Lower-casing does not touch whitespace, so it commutes with `strip()`. */
  lemma LowerStripCommutes(s: string)
    ensures Lower(Strip(s)) == Strip(Lower(s))
  {
    LowerTrimStart(s);
    LowerTrimEnd(TrimStart(s));
  }

  lemma {:induction false} LowerTrimStart(s: string)
    ensures Lower(TrimStart(s)) == TrimStart(Lower(s))
  {
    if s != [] && IsSpace(s[0]) {
      assert Lower(s)[1..] == Lower(s[1..]);
      assert IsSpace(Lower(s)[0]);
      assert TrimStart(Lower(s)) == TrimStart(Lower(s[1..]));
      LowerTrimStart(s[1..]);
    } else if s != [] {
      assert !IsSpace(Lower(s)[0]);
    }
  }

  lemma {:induction false} LowerTrimEnd(s: string)
    ensures Lower(TrimEnd(s)) == TrimEnd(Lower(s))
  {
    if s != [] && IsSpace(s[|s| - 1]) {
      assert Lower(s)[..|s| - 1] == Lower(s[..|s| - 1]);
      assert IsSpace(Lower(s)[|s| - 1]);
      LowerTrimEnd(s[..|s| - 1]);
    } else if s != [] {
      assert !IsSpace(Lower(s)[|s| - 1]);
    }
  }

  // ---------------------------------------------------------------------------------------------
  // Accounts
  // ---------------------------------------------------------------------------------------------

  /** `ROLE_CHOICES`; `create_user` stores the role it is given without checking it. */
  const Roles: set<string> := {"staff", "receptionist", "optometrist"}

  /** The default of `create_user`'s `role` parameter and of the `role` column. */
  const DefaultRole: string := "staff"

  class UserAccount {
    const id: Uuid
    var firstName: string
    var lastName: string
    const email: string
    var role: string
    var isActive: bool
    var isStaff: bool
    var isSuperuser: bool

    /** `self.model(email=..., role=..., **kwargs)`: the other columns take their defaults. */
    constructor (id: Uuid, email: string, role: string, firstName: string, lastName: string)
      ensures this.id == id && this.email == email && this.role == role
      ensures this.firstName == firstName && this.lastName == lastName
      ensures isActive && !isStaff && !isSuperuser
    {
      this.id := id;
      this.email := email;
      this.role := role;
      this.firstName := firstName;
      this.lastName := lastName;
      isActive := true;
      isStaff := false;
      isSuperuser := false;
    }

    /** The two flags `create_superuser` sets before saving the account again. */
    method Promote()
      modifies this
      ensures isStaff && isSuperuser
      ensures firstName == old(firstName) && lastName == old(lastName) && role == old(role)
      ensures isActive == old(isActive)
    {
      isSuperuser := true;
      isStaff := true;
    }
  }

  datatype AccountError =
    | MissingEmail        // ValueError("Users must have an email address")
    | EmailTaken          // the insert violates the unique constraint on `email`

  /** `UserAccount.objects`: the table of accounts. */
  class UserAccountManager {
    var accounts: seq<UserAccount>

    /** The emails of the accounts in the table. */
    function Emails(): (emails: set<string>)
      reads this
      ensures forall i | 0 <= i < |accounts| :: accounts[i].email in emails
    {
      set i | 0 <= i < |accounts| :: accounts[i].email
    }

    /** No two accounts share an email (and so no account appears twice). */
    ghost predicate Valid()
      reads this
    {
      forall i, j | 0 <= i < j < |accounts| :: accounts[i].email != accounts[j].email
    }

    constructor ()
      ensures Valid() && accounts == []
    {
      accounts := [];
    }

    /**
     * `create_user(email, password, role="staff", **kwargs)`: a missing or empty email is
     * refused; otherwise the account is stored with the normalised, lower-cased email, the given
     * role, active and with neither flag. A rejected call stores nothing.
     */
    method CreateUser(id: Uuid, email: Option<string>, role: Option<string>, firstName: string, lastName: string)
      returns (r: Result<UserAccount, AccountError>)
      requires Valid()
      modifies this
      ensures Valid()
      ensures (email.None? || email.value == "") <==> r == Failure(MissingEmail)
      ensures r == Failure(EmailTaken) <==>
        email.Some? && email.value != "" && StoredEmail(email.value) in old(Emails())
      ensures r.Failure? ==> accounts == old(accounts)
      ensures r.Success? ==>
        && email.Some? && fresh(r.value)
        && accounts == old(accounts) + [r.value]
        && r.value.id == id && r.value.email == StoredEmail(email.value)
        && r.value.role == role.GetOr(DefaultRole)
        && r.value.firstName == firstName && r.value.lastName == lastName
        && r.value.isActive && !r.value.isStaff && !r.value.isSuperuser
    {
      if email.None? || email.value == "" {
        return Failure(MissingEmail);
      }
      var stored := StoredEmail(email.value);
      if stored in Emails() {
        return Failure(EmailTaken);
      }
      var user := new UserAccount(id, stored, role.GetOr(DefaultRole), firstName, lastName);
      accounts := accounts + [user];
      r := Success(user);
    }

    /**
     * `create_superuser`: `create_user` with role "staff", then both flags set and saved again.
     */
    method CreateSuperuser(id: Uuid, email: Option<string>, firstName: string, lastName: string)
      returns (r: Result<UserAccount, AccountError>)
      requires Valid()
      modifies this
      ensures Valid()
      ensures (email.None? || email.value == "") <==> r == Failure(MissingEmail)
      ensures r == Failure(EmailTaken) <==>
        email.Some? && email.value != "" && StoredEmail(email.value) in old(Emails())
      ensures r.Failure? ==> accounts == old(accounts)
      ensures r.Success? ==>
        && email.Some? && fresh(r.value)
        && accounts == old(accounts) + [r.value]
        && r.value.id == id && r.value.email == StoredEmail(email.value) && r.value.role == DefaultRole
        && r.value.firstName == firstName && r.value.lastName == lastName
        && r.value.isActive && r.value.isStaff && r.value.isSuperuser
    {
      r := CreateUser(id, email, Some(DefaultRole), firstName, lastName);
      if r.Success? {
        r.value.Promote();
      }
    }
  }
}
