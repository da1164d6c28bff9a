/**
 * The authentication context (contexts/authContext.tsx): two state cells,
 * `user` (undefined until the identity provider first reports, then null or a
 * signed-in user) and `loading` (true until that first report).
 */
module AuthContext {
  import opened Wrappers

  /** A signed-in identity; only its identifier matters here. */
  datatype User = User(uid: string)

  /** `User | null | undefined`. */
  datatype AuthUser = Undetermined | SignedOut | SignedIn(user: User)

  /** The value the provider hands to every consumer. */
  datatype ContextValue = ContextValue(user: AuthUser, loading: bool)

  /** The context's default, and the provider's initial state. */
  const Initial := ContextValue(Undetermined, true)

  /** The user the identity provider reports: a User or null. */
  function Reported(report: Option<User>): (u: AuthUser)
    ensures u != Undetermined
  {
    if report.Some? then SignedIn(report.value) else SignedOut
  }

  /** What one onAuthStateChanged callback makes of the context. */
  function Step(v: ContextValue, report: Option<User>): ContextValue {
    ContextValue(Reported(report), false)
  }

  /** The context after a sequence of callbacks. */
  function After(reports: seq<Option<User>>): ContextValue {
    if reports == [] then Initial else Step(After(reports[..|reports| - 1]), reports[|reports| - 1])
  }

  /** Once resolved, the user is never undefined. */
  predicate Resolved(v: ContextValue) {
    !v.loading ==> v.user != Undetermined
  }

  /**
   * Over any history: loading holds exactly until the first callback, the user
   * is the one last reported, and a resolved context never has an undefined user.
   */
  lemma {:induction false} AfterReports(reports: seq<Option<User>>)
    ensures After(reports).loading <==> reports == []
    ensures reports == [] ==> After(reports).user == Undetermined
    ensures reports != [] ==> After(reports).user == Reported(reports[|reports| - 1])
    ensures Resolved(After(reports))
  {
  }

  /** Loading never comes back: a resolved context stays resolved with any later reports. */
  lemma {:induction false} LoadingNeverReturns(reports: seq<Option<User>>, later: seq<Option<User>>)
    requires !After(reports).loading
    ensures !After(reports + later).loading
  {
    AfterReports(reports);
    AfterReports(reports + later);
  }

  class AuthProvider {
    var user: AuthUser
    var loading: bool
    /** Every user the identity provider has reported so far, oldest first. */
    ghost var reports: seq<Option<User>>

    /** What the provider exposes is the context after the reports so far. */
    ghost predicate Valid()
      reads this
    {
      Value() == After(reports)
    }

    /** The `{ user, loading }` pair the provider exposes. */
    function Value(): ContextValue
      reads this
    {
      ContextValue(user, loading)
    }

    constructor ()
      ensures Valid() && Value() == Initial && reports == []
    {
      user := Undetermined;
      loading := true;
      reports := [];
    }

    /** The onAuthStateChanged callback: store the reported user and stop loading. */
    method OnAuthStateChanged(report: Option<User>)
      requires Valid()
      modifies this
      ensures Valid() && reports == old(reports) + [report]
      ensures Value() == Step(old(Value()), report)
      ensures !loading && user == Reported(report)
    {
      user := Reported(report);
      loading := false;
      reports := reports + [report];
      assert reports[..|reports| - 1] == old(reports);
    }
  }
}
