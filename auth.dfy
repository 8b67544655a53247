/**
 * The demo credential check of `authUtils`. Both functions are stateless:
 * the result depends on the arguments alone. Their `async` wrapping (a
 * promise that resolves at once) is not modelled.
 */
module Auth {

  const DemoEmail: string := "demo@example.com"
  const DemoPassword: string := "demo"
  const DemoUserId: string := "1"
  const DemoUserName: string := "Demo User"
  const InvalidCredentials: string := "Invalid credentials"

  datatype User = User(id: string, email: string, name: string)

  /** `{ success: true, user }` or `{ success: false, error }`. */
  datatype SignInResult = SignedIn(user: User) | Rejected(error: string)
  {
    predicate Success() { SignedIn? }
  }

  /** `{ success: true }`. */
  datatype SignOutResult = SignOutResult(success: bool)

  /** `authUtils.signIn`: an exact, case-sensitive comparison against the one demo pair. */
  function SignIn(email: string, password: string): (r: SignInResult)
    ensures r.Success() <==> email == DemoEmail && password == DemoPassword
    ensures r.Success() ==> r.user == User(DemoUserId, email, DemoUserName)
    ensures !r.Success() ==> r.error == InvalidCredentials
  {
    if email == DemoEmail && password == DemoPassword then
      SignedIn(User(DemoUserId, email, DemoUserName))
    else
      Rejected(InvalidCredentials)
  }

  /** `authUtils.signOut`: always reports success. */
  function SignOut(): (r: SignOutResult)
    ensures r.success
  {
    SignOutResult(true)
  }

  /** A successful sign-in hands back exactly the demo user; every other answer is the same rejection. */
  lemma SignInOutcomes(email: string, password: string, email': string, password': string)
    ensures SignIn(email, password).Success() ==> SignIn(email, password) == SignedIn(User("1", "demo@example.com", "Demo User"))
    ensures !SignIn(email, password).Success() && !SignIn(email', password').Success() ==>
      SignIn(email, password) == SignIn(email', password')
  {
  }

  /** No trimming and no case folding: near misses of the demo pair are rejected. */
  lemma NoNormalisation()
    ensures !SignIn(" demo@example.com", "demo").Success()
    ensures !SignIn("Demo@example.com", "demo").Success()
    ensures !SignIn("demo@example.com", "Demo").Success()
    ensures !SignIn("demo@example.com", "demo ").Success()
  {
    assert " demo@example.com"[0] != DemoEmail[0];
    assert "Demo@example.com"[0] != DemoEmail[0];
    assert "Demo"[0] != DemoPassword[0];
    assert |"demo "| != |DemoPassword|;
  }
}
