/** Login and profile editing. */
module UsersController {
  import opened Outcomes
  import opened Entities
  import Search
  import Guards

  /** The user row's email and password both equal the submitted ones
      (an exact, plaintext comparison). A field the browser did not send is
      `None` (JavaScript's `undefined`), which is strictly equal to no
      stored string. */
  predicate Matches(u: User, email: Option<string>, password: Option<string>) {
    email == Some(u.email) && password == Some(u.password)
  }

  /** `users[i]` is the first matching user: the one `find` returns. */
  predicate IsFirstMatch(users: seq<User>, email: Option<string>, password: Option<string>, i: int) {
    && 0 <= i < |users|
    && Matches(users[i], email, password)
    && forall j :: 0 <= j < i ==> !Matches(users[j], email, password)
  }

  /** Where a freshly logged-in user is sent. */
  function Landing(u: User): string {
    if u.role == "admin" then "/inventory" else "/shopping"
  }

  /** POST /login. A store error or no matching user sends the browser
      back to the login page and leaves the session as it was; otherwise
      the first matching user is stored in the session and sent to the
      inventory (admins) or the shop (everyone else). */
  function Login(s: Session, users: Store<seq<User>>, email: Option<string>, password: Option<string>): (r: Reply)
    ensures r.outcome != Redirect("/login") <==>
      users.Rows? && exists u :: u in users.value && Matches(u, email, password)
    ensures r.outcome == Redirect("/login") ==> r.session == s
    ensures r.outcome != Redirect("/login") ==>
      && r.session.cart == s.cart
      && r.session.user.Some?
      && (forall i :: IsFirstMatch(users.value, email, password, i) ==>
            r.session.user == Some(users.value[i]))
      && r.outcome == Redirect(Landing(r.session.user.value))
  {
    match users
    case StoreError => Reply(s, Redirect("/login"))
    case Rows(all) =>
      match Search.FirstIndex(all, (u: User) => Matches(u, email, password))
      case None =>
        assert forall u :: u in all ==> !Matches(u, email, password);
        Reply(s, Redirect("/login"))
      case Some(i) =>
        var user := all[i];
        assert IsFirstMatch(all, email, password, i);
        Reply(s.(user := Some(user)), Redirect(Landing(user)))
  }

  /** After a successful login the guards agree with the landing page:
      every logged-in user passes `checkAuthenticated`, and the admin
      guard passes exactly for those sent to the inventory. */
  lemma LoginLandsOnAllowedPage(s: Session, users: Store<seq<User>>, email: Option<string>, password: Option<string>)
    requires Login(s, users, email, password).outcome != Redirect("/login")
    ensures var t := Login(s, users, email, password).session;
      && Guards.CheckAuthenticated(t) == Pass
      && (Guards.CheckAdmin(t) == Pass <==>
          Login(s, users, email, password).outcome == Redirect("/inventory"))
  {
  }

  /** The profile form; a field the browser did not send is `None`. */
  datatype ProfileForm = ProfileForm(
    username: Option<string>,
    email: Option<string>,
    address: Option<string>,
    contact: Option<string>)

  /** JavaScript truthiness of a form field: sent and not empty. */
  predicate Truthy(x: Option<string>) {
    x.Some? && x.value != ""
  }

  /** The session user with the four editable fields taken from the form. */
  predicate ProfileApplied(u: User, f: ProfileForm, u': User) {
    && Some(u'.username) == f.username && Some(u'.email) == f.email
    && u'.address == f.address && u'.contact == f.contact
    && u'.id == u.id && u'.role == u.role && u'.password == u.password
  }

  /** POST to the profile update. Without a session user the handler
      fails on reading the user's id and the framework answers 500. A
      missing or empty username or email is rejected before the store is written;
      a failed write also leaves the session alone. Only a successful
      write copies username, email, address and contact into the session
      user. Every path that reaches the validation ends at the profile page. */
  function UpdateProfile(s: Session, f: ProfileForm, write: Write): (r: Reply)
    ensures s.user.None? ==> r == Reply(s, Status(500))
    ensures s.user.Some? ==> r.outcome == Redirect("/profile")
    ensures s.user.Some? && (!Truthy(f.username) || !Truthy(f.email) || write == WriteFailed)
      ==> r.session == s
    ensures s.user.Some? && Truthy(f.username) && Truthy(f.email) && write == Written ==>
      && r.session.cart == s.cart
      && r.session.user.Some?
      && ProfileApplied(s.user.value, f, r.session.user.value)
  {
    match s.user
    case None => Reply(s, Status(500))
    case Some(u) =>
      if !Truthy(f.username) || !Truthy(f.email) then Reply(s, Redirect("/profile"))
      else if write == WriteFailed then Reply(s, Redirect("/profile"))
      else
        var u' := u.(username := f.username.value, email := f.email.value,
                     address := f.address, contact := f.contact);
        Reply(s.(user := Some(u')), Redirect("/profile"))
  }

  /** Editing the profile never changes what the guards decide, since
      role is not an editable field. */
  lemma UpdateProfileKeepsAccess(s: Session, f: ProfileForm, write: Write)
    ensures var t := UpdateProfile(s, f, write).session;
      Guards.CheckAuthenticated(t) == Guards.CheckAuthenticated(s)
      && Guards.CheckAdmin(t) == Guards.CheckAdmin(s)
  {
  }

  /** Submitting the same form twice gives the same session as once. */
  lemma UpdateProfileIdempotent(s: Session, f: ProfileForm, write: Write)
    ensures var once := UpdateProfile(s, f, write);
      UpdateProfile(once.session, f, write).session == once.session
  {
  }

  /** Once the profile is saved, logging in with the new email and the
      unchanged password finds this user, provided no earlier row of the
      store matches and the row reflects the update. */
  lemma LoginAfterProfileUpdate(s: Session, f: ProfileForm, users: seq<User>, i: int)
    requires s.user.Some? && Truthy(f.username) && Truthy(f.email)
    requires 0 <= i < |users|
    requires users[i] == UpdateProfile(s, f, Written).session.user.value
    requires forall j :: 0 <= j < i ==> !Matches(users[j], f.email, Some(s.user.value.password))
    ensures Login(s, Rows(users), f.email, Some(s.user.value.password)).session.user == Some(users[i])
  {
    assert IsFirstMatch(users, f.email, Some(s.user.value.password), i);
  }

  /** A login form without an email or without a password never logs
      anyone in, whatever the stored rows hold, empty strings included. */
  lemma LoginWithMissingFieldFails(s: Session, users: seq<User>, email: Option<string>, password: Option<string>)
    requires email.None? || password.None?
    ensures Login(s, Rows(users), email, password) == Reply(s, Redirect("/login"))
  {
  }
}
