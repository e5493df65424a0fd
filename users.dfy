/**
 * The signed-in user and the mock accounts the sign-in and sign-up forms
 * produce (no server is contacted; the password is never looked at).
 */
module Users {
  import opened Text

  datatype User = User(id: int, email: string, firstName: string, lastName: string, token: string)

  /** `'mock-jwt-token-' + Date.now()`. */
  function SessionToken(now: nat): string {
    "mock-jwt-token-" + NatToString(now)
  }

  /** `login` at instant `now`: always user 1, John Doe, under the given email, whatever the password. */
  function LoginUser(email: string, password: string, now: nat): (u: User)
    ensures u.id == 1 && u.email == email && u.firstName == "John" && u.lastName == "Doe"
    ensures u.token == SessionToken(now)
  {
    User(1, email, "John", "Doe", SessionToken(now))
  }

  /** `signup` at instant `now`: the entered names and email, and the clock as both id and token suffix. */
  function SignupUser(email: string, password: string, firstName: string, lastName: string, now: nat): (u: User)
    ensures u.id == now && u.email == email && u.firstName == firstName && u.lastName == lastName
    ensures u.token == SessionToken(now)
  {
    User(now, email, firstName, lastName, SessionToken(now))
  }

  /** Sessions opened at different instants carry different tokens. */
  lemma SessionTokensDistinct(m: nat, n: nat)
    ensures SessionToken(m) == SessionToken(n) <==> m == n
  {
    if SessionToken(m) == SessionToken(n) {
      PrefixedIdInjective("mock-jwt-token-", m, n);
    }
  }
}
