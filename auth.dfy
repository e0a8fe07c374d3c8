/**
 * The mock authentication provider: the signed-in user, the two modal
 * flags, a loading flag and an error message. Sign-in and sign-up accept
 * any input after a simulated delay; each operation is modelled as one
 * atomic step, so the loading flag it raises on entry is lowered again
 * by the time it returns.
 */
module Auth {
  import opened Common

  datatype User = User(id: string, email: string, name: string, avatar: Option<string>, role: string)

  /** What `signIn`, `signUp` and `resetPassword` resolve to. */
  datatype AuthResult = AuthResult(success: bool, user: Option<User>)

  const UserKey := "triciana-user"
  const MockUserId := "1"
  const CustomerRole := "customer"

  /** The index of the first '@' in `s`, or `|s|` when there is none. */
  function FirstAt(s: string): (i: nat)
    ensures i <= |s|
    ensures '@' !in s[..i]
    ensures i < |s| ==> s[i] == '@'
  {
    if s == [] then 0
    else if s[0] == '@' then 0
    else
      assert s[..FirstAt(s[1..]) + 1] == [s[0]] + s[1..][..FirstAt(s[1..])];
      FirstAt(s[1..]) + 1
  }

  /** `email.split('@')[0]`: everything before the first '@', or all of it. */
  function NameFromEmail(email: string): (name: string)
    ensures '@' !in name
    ensures |name| <= |email| && name == email[..|name|]
    ensures |name| < |email| ==> email[|name|] == '@'
  {
    email[..FirstAt(email)]
  }

  /** The name is the local part of an address written as local part, '@', domain. */
  lemma {:induction false} NameIsLocalPart(local: string, domain: string)
    requires '@' !in local
    ensures NameFromEmail(local + "@" + domain) == local
  {
    var email := local + "@" + domain;
    assert email[|local|] == '@';
    assert email[..|local|] == local;
  }

  /** An address without '@' is its own name. */
  lemma NameWithoutAt(email: string)
    requires '@' !in email
    ensures NameFromEmail(email) == email
  {
    assert email[..|email|] == email;
  }

  /** The user `signIn` makes up from the address alone. */
  function SignedInUser(email: string): (u: User)
    ensures u.email == email && u.id == MockUserId && u.role == CustomerRole && u.avatar.None?
    ensures u.name == NameFromEmail(email)
    ensures |u.name| <= |email| && email[..|u.name|] == u.name && '@' !in u.name
  {
    User(MockUserId, email, NameFromEmail(email), None, CustomerRole)
  }

  /** The user `signUp` registers. */
  function SignedUpUser(name: string, email: string): (u: User)
    ensures u.name == name && u.email == email && u.id == MockUserId && u.role == CustomerRole && u.avatar.None?
  {
    User(MockUserId, email, name, None, CustomerRole)
  }

  /**
   * The provider's state, and the copy of the user persisted under
   * `UserKey` (removed when nobody is signed in).
   */
  class AuthStore {
    var user: Option<User>
    var isSignInOpen: bool
    var isSignUpOpen: bool
    var isLoading: bool
    var error: Option<string>
    var storedUser: Option<User>

    ghost predicate Valid()
      reads this
    {
      storedUser == user && !isLoading
    }

    /** `isAuthenticated`. */
    predicate IsAuthenticated()
      reads this
      ensures Valid() ==> (IsAuthenticated() <==> storedUser.Some?)
    {
      user.Some?
    }

    /** The user saved by an earlier visit, if any; both modals closed. */
    constructor (saved: Option<User>)
      ensures Valid()
      ensures user == saved && !isSignInOpen && !isSignUpOpen && error.None?
    {
      user := saved;
      isSignInOpen := false;
      isSignUpOpen := false;
      isLoading := false;
      error := None;
      storedUser := saved;
    }

    /** `signIn`: the password is not checked; any address signs in and closes the modal. */
    method SignIn(email: string, password: string) returns (result: AuthResult)
      modifies this
      ensures Valid()
      ensures user == Some(SignedInUser(email)) && IsAuthenticated()
      ensures result == AuthResult(true, user)
      ensures !isSignInOpen && isSignUpOpen == old(isSignUpOpen) && error.None?
    {
      isLoading := true;
      error := None;
      var mockUser := SignedInUser(email);
      user := Some(mockUser);
      isSignInOpen := false;
      result := AuthResult(true, Some(mockUser));
      isLoading := false;
      storedUser := user;
    }

    /** `signUp`: registers the given name and address and closes the modal. */
    method SignUp(name: string, email: string, password: string) returns (result: AuthResult)
      modifies this
      ensures Valid()
      ensures user == Some(SignedUpUser(name, email)) && IsAuthenticated()
      ensures result == AuthResult(true, user)
      ensures !isSignUpOpen && isSignInOpen == old(isSignInOpen) && error.None?
    {
      isLoading := true;
      error := None;
      var mockUser := SignedUpUser(name, email);
      user := Some(mockUser);
      isSignUpOpen := false;
      result := AuthResult(true, Some(mockUser));
      isLoading := false;
      storedUser := user;
    }

    /** `signOut`: nobody is signed in, both modals are closed, the error is cleared. */
    method SignOut()
      modifies this
      ensures user.None? && !IsAuthenticated() && storedUser.None?
      ensures !isSignInOpen && !isSignUpOpen && error.None?
      ensures isLoading == old(isLoading)
    {
      user := None;
      isSignInOpen := false;
      isSignUpOpen := false;
      error := None;
      storedUser := user;
    }

    /** `resetPassword`: succeeds and changes nothing but the error, which it clears. */
    method ResetPassword(email: string) returns (result: AuthResult)
      requires Valid()
      modifies this
      ensures Valid()
      ensures result == AuthResult(true, None)
      ensures user == old(user) && isSignInOpen == old(isSignInOpen) && isSignUpOpen == old(isSignUpOpen)
      ensures error.None?
    {
      isLoading := true;
      error := None;
      result := AuthResult(true, None);
      isLoading := false;
    }

    method SetSignInOpen(open: bool)
      modifies this
      ensures isSignInOpen == open
      ensures user == old(user) && storedUser == old(storedUser) && isSignUpOpen == old(isSignUpOpen)
      ensures isLoading == old(isLoading) && error == old(error)
    {
      isSignInOpen := open;
    }

    method SetSignUpOpen(open: bool)
      modifies this
      ensures isSignUpOpen == open
      ensures user == old(user) && storedUser == old(storedUser) && isSignInOpen == old(isSignInOpen)
      ensures isLoading == old(isLoading) && error == old(error)
    {
      isSignUpOpen := open;
    }
  }
}
