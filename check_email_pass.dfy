/** The two credential predicates the register and login handlers call. */
module CheckEmailPass {
  import opened Records

  /** Reference meaning of `emailExists`: some user has exactly this email. */
  ghost predicate HasEmail(users: seq<User>, email: string) {
    exists i :: 0 <= i < |users| && users[i].email == email
  }

  /** Reference meaning of `checkUserCredentials`: one and the same user has both. */
  ghost predicate HasAccount(users: seq<User>, email: string, password: string) {
    exists i :: 0 <= i < |users| && users[i].email == email && users[i].password == password
  }

  /**
   * `emailExists`: a left-to-right scan (`Array.prototype.some`) that
   * stops at the first user whose email is exactly `email`.
   */
  function EmailExists(users: seq<User>, email: string): (r: bool)
    ensures r <==> HasEmail(users, email)
    ensures users == [] ==> !r
    decreases |users|
  {
    if users == [] then false
    else if users[0].email == email then true
    else
      var rest := EmailExists(users[1..], email);
      assert forall i :: 1 <= i < |users| ==> users[i] == users[1..][i - 1];
      rest
  }

  /**
   * `checkUserCredentials`: the same kind of scan, for a single user whose
   * email and password both match.
   */
  function CheckUserCredentials(users: seq<User>, email: string, password: string): (r: bool)
    ensures r <==> HasAccount(users, email, password)
    ensures users == [] ==> !r
    decreases |users|
  {
    if users == [] then false
    else if users[0].email == email && users[0].password == password then true
    else
      var rest := CheckUserCredentials(users[1..], email, password);
      assert forall i :: 1 <= i < |users| ==> users[i] == users[1..][i - 1];
      rest
  }

  /** A matching account always has a matching email. */
  lemma CredentialsImplyEmailExists(users: seq<User>, email: string, password: string)
    ensures CheckUserCredentials(users, email, password) ==> EmailExists(users, email)
  {
  }

  /** Both predicates are existential scans: appending a user keeps every match. */
  lemma AppendKeepsMatches(users: seq<User>, u: User, email: string, password: string)
    ensures EmailExists(users, email) ==> EmailExists(users + [u], email)
    ensures CheckUserCredentials(users, email, password) ==> CheckUserCredentials(users + [u], email, password)
  {
    if EmailExists(users, email) {
      var i :| 0 <= i < |users| && users[i].email == email;
      assert (users + [u])[i] == users[i];
    }
    if CheckUserCredentials(users, email, password) {
      var i :| 0 <= i < |users| && users[i].email == email && users[i].password == password;
      assert (users + [u])[i] == users[i];
    }
  }
}
