// The single-responsibility example: a validator, a repository and a
// registration service that uses both.
module SolidPrinciples {
  import opened Wrappers
  import Text
  import Seqs

  const ShortUsername := "Username must be at least 3 characters"
  const BadEmail := "Invalid email address"
  const ShortPassword := "Password must be at least 8 characters"

  /** Every message `validate` can report, in the order it checks them. */
  const AllErrors := [ShortUsername, BadEmail, ShortPassword]

  /** The registration rules. */
  predicate Acceptable(username: string, email: string, password: string)
  {
    |username| >= 3 && '@' in email && |password| >= 8
  }

  /**
   * `validate`: one message per broken rule, in the order the rules are
   * checked; no message means the registration is acceptable.
   */
  function Validate(username: string, email: string, password: string): (errors: seq<string>)
    ensures errors == [] <==> Acceptable(username, email, password)
    ensures ShortUsername in errors <==> |username| < 3
    ensures BadEmail in errors <==> '@' !in email
    ensures ShortPassword in errors <==> |password| < 8
    ensures Seqs.IsSubsequence(errors, AllErrors)
  {
    var errors := (if |username| < 3 then [ShortUsername] else [])
      + (if '@' !in email then [BadEmail] else [])
      + (if |password| < 8 then [ShortPassword] else []);
    SubsequenceOfErrors(|username| < 3, '@' !in email, |password| < 8);
    errors
  }

  /** Any choice among the three messages, kept in order, is a subsequence of all of them. */
  lemma SubsequenceOfErrors(u: bool, e: bool, p: bool)
    ensures ShortUsername != BadEmail && BadEmail != ShortPassword && ShortUsername != ShortPassword
    ensures Seqs.IsSubsequence(
      (if u then [ShortUsername] else []) + (if e then [BadEmail] else []) + (if p then [ShortPassword] else []),
      AllErrors)
  {
    assert ShortUsername[0] != BadEmail[0] && BadEmail[0] != ShortPassword[0];
    assert ShortUsername[0] != ShortPassword[0];
    assert AllErrors[1..][1..] == AllErrors[2..];
    assert AllErrors[2..][1..] == [];
    var tail := (if p then [ShortPassword] else []);
    assert Seqs.IsSubsequence(tail, AllErrors[2..]) by {
      if p {
        assert tail[1..] == [];
      }
    }
    var mid := (if e then [BadEmail] else []) + tail;
    assert Seqs.IsSubsequence(mid, AllErrors[1..]) by {
      if e {
        assert mid[1..] == tail;
      } else {
        assert mid == tail;
      }
    }
    var all := (if u then [ShortUsername] else []) + mid;
    assert Seqs.IsSubsequence(all, AllErrors) by {
      if u {
        assert all[1..] == mid;
      } else {
        assert all == mid;
      }
    }
  }

  /** The record `save` stores for a user. */
  datatype UserRecord = UserRecord(email: string)

  class UserRepository {
    var users: map<string, UserRecord>

    constructor ()
      ensures users == map[]
    {
      users := map[];
    }

    /** Stores the user's email, replacing any earlier record under that name. */
    method Save(username: string, email: string) returns (message: string)
      modifies this
      ensures users == old(users)[username := UserRecord(email)]
      ensures message == "💾 Saved " + username + " to database"
    {
      users := users[username := UserRecord(email)];
      message := "💾 Saved " + username + " to database";
    }

    /** The stored record, or None for a name that was never saved. */
    method Find(username: string) returns (r: Option<UserRecord>)
      ensures username in users <==> r.Some?
      ensures r.Some? ==> r.value == users[username]
    {
      r := if username in users then Some(users[username]) else None;
    }
  }

  /** What `WelcomeEmailSender.send` returns; the service discards it. */
  function WelcomeEmail(email: string): string
  {
    "📧 Welcome email sent to " + email
  }

  class UserRegistrationService {
    const repo: UserRepository

    constructor ()
      ensures fresh(repo) && repo.users == map[]
    {
      repo := new UserRepository();
    }

    /** Saves the user only when validation passes; a failure leaves the repository as it was. */
    method Register(username: string, email: string, password: string) returns (message: string)
      modifies repo
      ensures Acceptable(username, email, password) ==>
        repo.users == old(repo.users)[username := UserRecord(email)] && message == "✅ " + username + " registered successfully!"
      ensures !Acceptable(username, email, password) ==>
        repo.users == old(repo.users)
        && message == "❌ Validation failed: " + Text.Join(Validate(username, email, password), ", ")
    {
      var errors := Validate(username, email, password);
      if errors != [] {
        return "❌ Validation failed: " + Text.Join(errors, ", ");
      }
      var _ := repo.Save(username, email);
      message := "✅ " + username + " registered successfully!";
    }
  }

  const AliceName := "alice"
  const AliceEmail := "alice@example.com"

  /** The demonstration's first registration follows every rule. */
  lemma AliceAcceptable()
    ensures Acceptable(AliceName, AliceEmail, "password123")
  {
    assert AliceEmail[5] == '@';
  }

  /** The demonstration's second registration breaks all three rules. */
  lemma BadRegistrationErrors()
    ensures Validate("ab", "bad-email", "short") == AllErrors
  {
    assert '@' !in "bad-email";
  }

  /** The demonstration: the good registration is found afterwards, the bad one reports all three errors. */
  method DemoRegistration() returns (found: Option<UserRecord>, rejected: string)
    ensures found == Some(UserRecord(AliceEmail))
    ensures rejected == "❌ Validation failed: " + Text.Join(AllErrors, ", ")
  {
    var service := new UserRegistrationService();
    AliceAcceptable();
    var _ := service.Register(AliceName, AliceEmail, "password123");
    BadRegistrationErrors();
    rejected := service.Register("ab", "bad-email", "short");
    found := service.repo.Find(AliceName);
  }
}
