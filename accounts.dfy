/** The records of the JSON server's `/users` collection. */
module Accounts {

  /** A user row as the server stores it. `role` is "user" or "admin" for every
      account this client creates, but any string may come back from the server. */
  datatype User = User(
    id: string,
    name: string,
    email: string,
    password: string,
    role: string,
    isBlocked: bool)

  const AdminRole := "admin"
  const UserRole := "user"

  predicate IsAdmin(u: User) { u.role == AdminRole }

  /** Where a logged-in user is sent: the dashboard for an admin, the home page otherwise. */
  function LandingPage(role: string): (path: string)
    ensures path == "/admin" <==> role == AdminRole
    ensures path == "/admin" || path == "/"
  {
    if role == AdminRole then "/admin" else "/"
  }
}
