/**
 * The withAuth wrapper (components/withAuth.tsx): from the auth context and
 * the current pathname, the redirects its effect issues and what it renders.
 */
module WithAuth {
  import opened Wrappers
  import opened AuthContext
  import CardsQuery

  datatype View = LoadingView | WrappedView

  /** One evaluation: the paths pushed to the router, and the rendered view. */
  datatype Decision = Decision(pushes: seq<string>, view: View)

  const HomePath := "/"

  function Evaluate(ctx: ContextValue, pathname: string): Decision {
    var pushes :=
      if ctx.loading then []
      else if !ctx.user.SignedIn? then [HomePath]
      else if pathname == HomePath then [CardsQuery.CardsPath]
      else [];
    Decision(pushes, if ctx.loading then LoadingView else WrappedView)
  }

  /**
   * The decision table: nothing is pushed while loading; a falsy user (null or
   * undefined) is sent to "/"; a signed-in user on "/" is sent to "/cards"; a
   * signed-in user elsewhere stays. At most one push per evaluation, and the
   * wrapped component renders whenever loading is over, redirect or not.
   */
  lemma EvaluateTable(ctx: ContextValue, pathname: string)
    ensures |Evaluate(ctx, pathname).pushes| <= 1
    ensures Evaluate(ctx, pathname).view == LoadingView <==> ctx.loading
    ensures ctx.loading ==> Evaluate(ctx, pathname).pushes == []
    ensures !ctx.loading && !ctx.user.SignedIn? ==> Evaluate(ctx, pathname).pushes == ["/"]
    ensures !ctx.loading && ctx.user.SignedIn? && pathname == "/" ==> Evaluate(ctx, pathname).pushes == ["/cards"]
    ensures !ctx.loading && ctx.user.SignedIn? && pathname != "/" ==> Evaluate(ctx, pathname).pushes == []
  {
  }

  /**
   * Composed with the provider: before any report the loading view shows and
   * nothing is pushed; afterwards the wrapped component shows and the push
   * depends only on the last reported user.
   */
  lemma GateOverHistory(reports: seq<Option<User>>, pathname: string)
    ensures reports == [] ==> Evaluate(After(reports), pathname) == Decision([], LoadingView)
    ensures reports != [] && reports[|reports| - 1].None? ==>
      Evaluate(After(reports), pathname) == Decision(["/"], WrappedView)
    ensures reports != [] && reports[|reports| - 1].Some? ==>
      Evaluate(After(reports), pathname) == Decision(if pathname == "/" then ["/cards"] else [], WrappedView)
  {
    AfterReports(reports);
  }
}
