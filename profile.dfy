// The profile settings panel: the ordered checks a password change and an
// email change go through before any backend call, the form state they
// clear on success, and the username fetch and update, which need a
// signed-in user.

module Profile {
  import opened Types

  /** The first check a password change fails, or that it passes them all. */
  datatype PasswordCheck = PasswordFieldsMissing | PasswordsDiffer | PasswordTooShort | PasswordAccepted

  const MinPasswordLength := 6

  /** `s.length`: the number of UTF-16 code units, two for a character beyond the Basic Multilingual Plane. */
  function Utf16Length(s: string): (n: nat)
    ensures |s| <= n <= 2 * |s|
    ensures (forall i :: 0 <= i < |s| ==> (s[i] as int) < 0x1_0000) ==> n == |s|
    ensures |s| == 1 ==> n == if (s[0] as int) < 0x1_0000 then 1 else 2
  {
    if s == [] then 0
    else (if (s[0] as int) < 0x1_0000 then 1 else 2) + Utf16Length(s[1..])
  }

  /** The units of a text are those of its parts: each character counts on its own. */
  lemma {:induction false} Utf16LengthAppend(a: string, b: string)
    ensures Utf16Length(a + b) == Utf16Length(a) + Utf16Length(b)
  {
    if a == [] {
      assert a + b == b;
    } else {
      assert (a + b)[0] == a[0] && (a + b)[1..] == a[1..] + b;
      Utf16LengthAppend(a[1..], b);
    }
  }

  /** updatePassword's checks, in order: all three fields filled, the two new passwords equal, at least six UTF-16 units. */
  function CheckPassword(current: string, newPassword: string, confirm: string): (r: PasswordCheck)
    ensures r == PasswordFieldsMissing <==> current == "" || newPassword == "" || confirm == ""
    ensures r == PasswordsDiffer <==>
              current != "" && newPassword != "" && confirm != "" && newPassword != confirm
    ensures r == PasswordTooShort <==>
              current != "" && newPassword != "" && newPassword == confirm && Utf16Length(newPassword) < MinPasswordLength
    ensures r == PasswordAccepted <==>
              current != "" && newPassword == confirm && Utf16Length(newPassword) >= MinPasswordLength
  {
    if current == "" || newPassword == "" || confirm == "" then PasswordFieldsMissing
    else if newPassword != confirm then PasswordsDiffer
    else if Utf16Length(newPassword) < MinPasswordLength then PasswordTooShort
    else PasswordAccepted
  }

  /** Three emoji are six UTF-16 units, so they make a long enough new password. */
  lemma ThreeEmojiAccepted()
    ensures CheckPassword("x", "\U{1F600}\U{1F600}\U{1F600}", "\U{1F600}\U{1F600}\U{1F600}") == PasswordAccepted
  {
    var e := "\U{1F600}\U{1F600}\U{1F600}";
    assert e[1..][1..][1..] == [];
  }

  /** The current password is only required to be non-empty; its value is never compared with anything. */
  lemma CurrentPasswordNotVerified(a: string, b: string, newPassword: string, confirm: string)
    requires a != "" && b != ""
    ensures CheckPassword(a, newPassword, confirm) == CheckPassword(b, newPassword, confirm)
  {
  }

  /** The first check an email change fails, or that it passes. */
  datatype EmailCheck = EmailFieldsMissing | EmailAccepted

  /** updateEmail's check: the new email and the current password both filled. */
  function CheckEmail(newEmail: string, currentPassword: string): (r: EmailCheck)
    ensures r == EmailAccepted <==> newEmail != "" && currentPassword != ""
  {
    if newEmail == "" || currentPassword == "" then EmailFieldsMissing else EmailAccepted
  }

  /** `user?.id` is truthy: there is a user and the id is not "". */
  predicate SignedIn(userId: Option<string>) {
    userId.Some? && userId.value != ""
  }

  /** How an awaited auth or table call settled: done, an error it reported, or a throw. */
  datatype Reply = Done | Reported(message: string) | Threw

  class ProfileSettings {
    var newEmail: string
    var currentPasswordForEmail: string
    var currentPasswordForPassword: string
    var newPassword: string
    var confirmPassword: string
    var username: string

    constructor()
      ensures newEmail == "" && currentPasswordForEmail == ""
      ensures currentPasswordForPassword == "" && newPassword == "" && confirmPassword == ""
      ensures username == ""
    {
      newEmail := "";
      currentPasswordForEmail := "";
      currentPasswordForPassword := "";
      newPassword := "";
      confirmPassword := "";
      username := "";
    }

    /**
     * updatePassword: `reply` is how updateUser settles if it is called.
     * Returns the check's verdict and whether updateUser was called.
     */
    method UpdatePassword(reply: Reply) returns (check: PasswordCheck, called: bool)
      modifies this
      ensures check == CheckPassword(old(currentPasswordForPassword), old(newPassword), old(confirmPassword))
      ensures called <==> check == PasswordAccepted
      ensures called && reply == Done ==>
                currentPasswordForPassword == "" && newPassword == "" && confirmPassword == ""
      ensures !(called && reply == Done) ==>
                currentPasswordForPassword == old(currentPasswordForPassword) &&
                newPassword == old(newPassword) && confirmPassword == old(confirmPassword)
      ensures newEmail == old(newEmail) && currentPasswordForEmail == old(currentPasswordForEmail)
      ensures username == old(username)
    {
      check := CheckPassword(currentPasswordForPassword, newPassword, confirmPassword);
      called := false;
      if check != PasswordAccepted {
        return;
      }
      called := true;
      if reply == Done {
        currentPasswordForPassword := "";
        newPassword := "";
        confirmPassword := "";
      }
    }

    /**
     * updateEmail: `signIn` is how the password re-check settles and
     * `update` how updateUser settles, each if it is reached.
     */
    method UpdateEmail(signIn: Reply, update: Reply) returns (check: EmailCheck, signInTried: bool, updateCalled: bool)
      modifies this
      ensures check == CheckEmail(old(newEmail), old(currentPasswordForEmail))
      ensures signInTried <==> check == EmailAccepted
      ensures updateCalled <==> signInTried && signIn == Done
      ensures updateCalled && update == Done ==> newEmail == "" && currentPasswordForEmail == ""
      ensures !(updateCalled && update == Done) ==>
                newEmail == old(newEmail) && currentPasswordForEmail == old(currentPasswordForEmail)
      ensures currentPasswordForPassword == old(currentPasswordForPassword)
      ensures newPassword == old(newPassword) && confirmPassword == old(confirmPassword)
      ensures username == old(username)
    {
      check := CheckEmail(newEmail, currentPasswordForEmail);
      signInTried, updateCalled := false, false;
      if check != EmailAccepted {
        return;
      }
      signInTried := true;
      if signIn != Done {
        return;
      }
      updateCalled := true;
      if update == Done {
        newEmail := "";
        currentPasswordForEmail := "";
      }
    }

    /**
     * fetchProfile: with a signed-in user, a profile row found without
     * error sets the username, a null one to "". `found` is the row's
     * username column when the query succeeds.
     */
    method FetchProfile(userId: Option<string>, found: Option<Option<string>>) returns (queried: bool)
      modifies this
      ensures queried <==> SignedIn(userId)
      ensures queried && found.Some? ==> username == found.value.GetOr("")
      ensures !(queried && found.Some?) ==> username == old(username)
      ensures newEmail == old(newEmail) && currentPasswordForEmail == old(currentPasswordForEmail)
      ensures currentPasswordForPassword == old(currentPasswordForPassword)
      ensures newPassword == old(newPassword) && confirmPassword == old(confirmPassword)
    {
      if !SignedIn(userId) {
        return false;
      }
      queried := true;
      if found.Some? {
        username := found.value.GetOr("");
      }
    }

    /** updateUsername: sends the username for the signed-in user, and nothing without one. */
    method UpdateUsername(userId: Option<string>) returns (sent: Option<(string, string)>)
      ensures !SignedIn(userId) ==> sent.None?
      ensures SignedIn(userId) ==> sent == Some((userId.value, username))
    {
      if !SignedIn(userId) {
        return None;
      }
      sent := Some((userId.value, username));
    }
  }
}
