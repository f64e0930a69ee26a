/** The middleware of the application: the two route guards and the
    registration form check. */
module Guards {
  import opened Outcomes
  import opened Entities

  /** Lets the request through when a user is logged in; otherwise sends
      the browser to the login page. */
  function CheckAuthenticated(s: Session): (r: Outcome)
    ensures r == Pass <==> s.user.Some?
    ensures r != Pass ==> r == Redirect("/login")
  {
    if s.user.Some? then Pass else Redirect("/login")
  }

  /** Lets the request through only for a logged-in user whose role is
      exactly "admin"; otherwise sends the browser to the shop. */
  function CheckAdmin(s: Session): (r: Outcome)
    ensures r == Pass <==> s.user.Some? && s.user.value.role == "admin"
    ensures r != Pass ==> r == Redirect("/shopping")
  {
    if s.user.Some? && s.user.value.role == "admin" then Pass else Redirect("/shopping")
  }

  /** A route: `checkAuthenticated`, then `checkAdmin` for admin-only
      routes, then the handler. A guard that does not pass answers with
      its redirect and leaves the session alone. */
  function Route(s: Session, adminOnly: bool, handler: Session -> Reply): (r: Reply)
    ensures s.user.None? ==> r == Reply(s, Redirect("/login"))
    ensures s.user.Some? && adminOnly && s.user.value.role != "admin"
      ==> r == Reply(s, Redirect("/shopping"))
    ensures s.user.Some? && (!adminOnly || s.user.value.role == "admin") ==> r == handler(s)
  {
    var auth := CheckAuthenticated(s);
    if auth != Pass then Reply(s, auth)
    else if !adminOnly then handler(s)
    else
      var admin := CheckAdmin(s);
      if admin != Pass then Reply(s, admin) else handler(s)
  }

  /** Passing the admin guard implies passing the login guard, so the
      admin-only chain passes exactly when `checkAdmin` alone would. */
  lemma AdminChainIsCheckAdmin(s: Session, handler: Session -> Reply)
    ensures CheckAdmin(s) == Pass ==> CheckAuthenticated(s) == Pass
    ensures Route(s, true, handler) == (if CheckAdmin(s) == Pass then handler(s)
      else Reply(s, if CheckAuthenticated(s) == Pass then Redirect("/shopping") else Redirect("/login")))
  {
  }

  /** The registration form. A field the browser did not send reads as "",
      which is falsy in the same way. */
  datatype RegistrationForm = RegistrationForm(
    username: string,
    email: string,
    password: string,
    address: string,
    contact: string,
    role: string)

  predicate AllFieldsPresent(f: RegistrationForm) {
    f.username != "" && f.email != "" && f.password != ""
    && f.address != "" && f.contact != "" && f.role != ""
  }

  /** Missing fields are answered with 400 before the password length is
      looked at; a password shorter than 6 characters sends the user back
      to the form; otherwise registration proceeds. */
  function ValidateRegistration(f: RegistrationForm): (r: Outcome)
    ensures r == Status(400) <==> !AllFieldsPresent(f)
    ensures r == Redirect("/register") <==> AllFieldsPresent(f) && |f.password| < 6
    ensures r == Pass <==> AllFieldsPresent(f) && |f.password| >= 6
  {
    if f.username == "" || f.email == "" || f.password == ""
      || f.address == "" || f.contact == "" || f.role == "" then Status(400)
    else if |f.password| < 6 then Redirect("/register")
    else Pass
  }
}
