/** The action steps: the login step, which fills the scenario's context
    (browser, user, connection, engine) and navigates, and the data-table step
    that sets one field per row. */
module CommonActions {
  import opened Js
  import opened Driver
  import opened FieldPlans
  import opened SfdcUtilities

  // ---------------------------------------------------------------------------
  // Login step

  /** The credential object `Utils.getValue(credential)` yields. */
  datatype Credential = Credential(username: string, environment: string)

  /** A browser handle: `Unassigned` is a `let` that was never assigned. */
  datatype DriverRef = Unassigned | Pooled(poolKey: string)

  /** `new Engine(environment)`, and the connection `engine.login` returns. */
  datatype SforceRef = SforceRef(environment: string)
  datatype Session = Session(user: Credential)

  /** `this.parameters.context`; a property the step does not set is None. */
  datatype Context = Context(user: Option<Credential>, browser: DriverRef,
                             connection: Option<Session>, sforce: Option<SforceRef>)

  /** The calls of the login step into the framework and the SDK. */
  datatype Event =
    | Acquire(poolKey: string)
    | Login(environment: string, user: Credential)
    | GoTo(driver: DriverRef, url: string)

  /** The context the step leaves behind. */
  function LoginContext(credentials: string -> Credential, credential: string): Context {
    if credential == "public" then Context(None, Pooled(credential), None, None)
    else
      var c := credentials(credential);
      Context(Some(c), Pooled(c.username), Some(Session(c)), Some(SforceRef(c.environment)))
  }

  /** The calls the step makes: acquire a browser (and, for a user, log in and
      open the login URL), then go to the resolved url unless it is "/", through
      the outer `driver` variable. */
  function LoginEvents(resolve: string -> string, credentials: string -> Credential, loginUrl: Credential -> string,
                       url: string, credential: string): seq<Event> {
    var c := credentials(credential);
    var setup := if credential == "public" then [Acquire(credential)]
                 else [Acquire(c.username), Login(c.environment, c), GoTo(Pooled(c.username), loginUrl(c))];
    var outer := if credential == "public" then Pooled(credential) else Unassigned;
    setup + (if resolve(url) != "/" then [GoTo(outer, resolve(url))] else [])
  }

  /** The scenario as the login step sees it. `resolve` and `credentials` are
      `Utils.getValue` on a url and on a credential name, `loginUrl` is what
      `engine.getLoginUrl()` answers once the user has logged in. */
  class World {
    const resolve: string -> string
    const credentials: string -> Credential
    const loginUrl: Credential -> string
    var context: Context
    var events: seq<Event>

    constructor (resolve: string -> string, credentials: string -> Credential, loginUrl: Credential -> string,
                 context: Context)
      ensures this.resolve == resolve && this.credentials == credentials && this.loginUrl == loginUrl
      ensures this.context == context && events == []
    {
      this.resolve := resolve;
      this.credentials := credentials;
      this.loginUrl := loginUrl;
      this.context := context;
      events := [];
    }

    /** `getBrowserFromPool(key)`. */
    method GetBrowserFromPool(key: string) returns (driver: DriverRef)
      modifies this
      ensures driver == Pooled(key) && context == old(context)
      ensures events == old(events) + [Acquire(key)]
    {
      driver := Pooled(key);
      events := events + [Acquire(key)];
    }

    /** `new Engine(environment)` followed by `engine.login(user)`. */
    method LoginEngine(user: Credential) returns (engine: SforceRef, connection: Session)
      modifies this
      ensures engine == SforceRef(user.environment) && connection == Session(user) && context == old(context)
      ensures events == old(events) + [Login(user.environment, user)]
    {
      engine := SforceRef(user.environment);
      connection := Session(user);
      events := events + [Login(user.environment, user)];
    }

    /** `goToUrl(driver, url)`. */
    method GoToUrl(driver: DriverRef, url: string)
      modifies this
      ensures context == old(context)
      ensures events == old(events) + [GoTo(driver, url)]
    {
      events := events + [GoTo(driver, url)];
    }

    /** `Go to <url> as <credential> user`. */
    method GoToAsUser(url: string, credential: string)
      modifies this
      ensures context == LoginContext(credentials, credential)
      ensures events == old(events) + LoginEvents(resolve, credentials, loginUrl, url, credential)
    {
      var driver := Unassigned;
      if credential == "public" {
        driver := GetBrowserFromPool(credential);
        context := Context(None, driver, None, None);
      } else {
        var objCredentials := credentials(credential);
        var driver := GetBrowserFromPool(objCredentials.username);
        var engine, connection := LoginEngine(objCredentials);
        var generatedUrl := loginUrl(objCredentials);
        GoToUrl(driver, generatedUrl);
        context := Context(Some(objCredentials), driver, Some(connection), Some(engine));
      }
      var target := resolve(url);
      if target != "/" {
        GoToUrl(driver, target);
      }
    }
  }

  /** The public credential leaves exactly a browser, from the pool entry
      "public", in the context, and logs nobody in. */
  lemma PublicSetsOnlyBrowser(resolve: string -> string, credentials: string -> Credential,
                              loginUrl: Credential -> string, url: string)
    ensures LoginContext(credentials, "public") == Context(None, Pooled("public"), None, None)
    ensures forall i :: 0 <= i < |LoginEvents(resolve, credentials, loginUrl, url, "public")| ==>
              !LoginEvents(resolve, credentials, loginUrl, url, "public")[i].Login?
  {
  }

  /** Any other credential fills user, browser, connection and engine; the
      browser comes from the pool entry of the user's name, and the login
      happens before the login URL is opened. */
  lemma UserFillsContext(resolve: string -> string, credentials: string -> Credential,
                         loginUrl: Credential -> string, url: string, credential: string)
    requires credential != "public"
    ensures var c := credentials(credential);
            var ctx := LoginContext(credentials, credential);
            && ctx.user == Some(c) && ctx.browser == Pooled(c.username)
            && ctx.connection == Some(Session(c)) && ctx.sforce == Some(SforceRef(c.environment))
            && LoginEvents(resolve, credentials, loginUrl, url, credential)[..3]
               == [Acquire(c.username), Login(c.environment, c), GoTo(Pooled(c.username), loginUrl(c))]
  {
  }

  /** The step navigates to the resolved url exactly when it is not "/": one
      more call, and it is the last. */
  lemma NavigatesUnlessRoot(resolve: string -> string, credentials: string -> Credential,
                            loginUrl: Credential -> string, url: string, credential: string)
    ensures var events := LoginEvents(resolve, credentials, loginUrl, url, credential);
            var setup := if credential == "public" then 1 else 3;
            && |events| == setup + (if resolve(url) != "/" then 1 else 0)
            && (resolve(url) != "/" ==> events[|events| - 1].GoTo? && events[|events| - 1].url == resolve(url))
  {
  }

  /** The inner `const driver` hides the outer `let driver`: for a user, the
      final navigation goes through a driver that was never assigned, not the
      one stored in the context; for "public" it goes through the context's. */
  lemma UserNavigatesWithUnassignedDriver(resolve: string -> string, credentials: string -> Credential,
                                          loginUrl: Credential -> string, url: string, credential: string)
    requires resolve(url) != "/"
    ensures var events := LoginEvents(resolve, credentials, loginUrl, url, credential);
            var ctx := LoginContext(credentials, credential);
            && (credential != "public" ==>
                  events[|events| - 1] == GoTo(Unassigned, resolve(url)) && ctx.browser != Unassigned)
            && (credential == "public" ==> events[|events| - 1] == GoTo(ctx.browser, resolve(url)))
  {
  }

  // ---------------------------------------------------------------------------
  // Set-value table

  /** The actions `setValueInObjectFieldType` takes for one row. */
  function RowPlan(row: FieldRow): seq<Action> {
    SetValuePlan(row.objectField, row.value, row.fieldType, row.field)
  }

  /** The actions of the first `n` rows, each row's plan after the previous
      one's; the lemmas below hold for any choice of `plan`, and the step uses RowPlan. */
  function Plans(plan: FieldRow -> seq<Action>, rows: seq<FieldRow>, n: nat): seq<Action>
    requires n <= |rows|
    decreases n
  {
    if n == 0 then [] else Plans(plan, rows, n - 1) + plan(rows[n - 1])
  }

  /** A table cut in two plays the first part's rows, then the second's. */
  lemma PlansConcat(plan: FieldRow -> seq<Action>, rows: seq<FieldRow>, more: seq<FieldRow>)
    ensures Plans(plan, rows + more, |rows + more|) == Plans(plan, rows, |rows|) + Plans(plan, more, |more|)
  {
    var all := rows + more;
    PlansPrefix(plan, rows, more, |rows|);
    for j := 0 to |more|
      invariant Plans(plan, all, |rows| + j) == Plans(plan, rows, |rows|) + Plans(plan, more, j)
    {
      PlansConcatStep(plan, rows, more, j);
    }
  }

  lemma PlansConcatStep(plan: FieldRow -> seq<Action>, rows: seq<FieldRow>, more: seq<FieldRow>, j: nat)
    requires j < |more|
    requires Plans(plan, rows + more, |rows| + j) == Plans(plan, rows, |rows|) + Plans(plan, more, j)
    ensures Plans(plan, rows + more, |rows| + j + 1) == Plans(plan, rows, |rows|) + Plans(plan, more, j + 1)
  {
    PlansStep(plan, rows + more, |rows| + j);
    PlansStep(plan, more, j);
    assert (rows + more)[|rows| + j] == more[j];
    ConcatAssoc(Plans(plan, rows, |rows|), Plans(plan, more, j), plan(more[j]));
  }

  /** The plans of the earlier rows do not depend on the later ones. */
  lemma PlansPrefix(plan: FieldRow -> seq<Action>, rows: seq<FieldRow>, more: seq<FieldRow>, n: nat)
    requires n <= |rows|
    ensures Plans(plan, rows + more, n) == Plans(plan, rows, n)
  {
    for j := 0 to n
      invariant Plans(plan, rows + more, j) == Plans(plan, rows, j)
    {
      assert (rows + more)[j] == rows[j];
    }
  }

  lemma PlansStep(plan: FieldRow -> seq<Action>, rows: seq<FieldRow>, i: nat)
    requires i < |rows|
    ensures Plans(plan, rows, i + 1) == Plans(plan, rows, i) + plan(rows[i])
  {
  }

  /** The plan of a single row is that row's plan: the table forwards the row's
      object field, value, field type and field unchanged. */
  lemma PlansSingle(plan: FieldRow -> seq<Action>, row: FieldRow)
    ensures Plans(plan, [row], 1) == plan(row)
  {
    assert Plans(plan, [row], 0) == [];
  }

  /** One row of the set-value step. */
  method SetRow(b: Browser, ghost trace0: seq<Action>, rows: seq<FieldRow>, i: nat)
    requires i < |rows| && b.trace == trace0 + Plans(RowPlan, rows, i)
    modifies b
    ensures b.trace == trace0 + Plans(RowPlan, rows, i + 1)
  {
    var row := rows[i];
    ghost var before := b.trace;
    SetValueInObjectFieldType(b, row.objectField, row.value, row.fieldType, row.field);
    PlansStep(RowPlan, rows, i);
    ConcatAssoc(trace0, Plans(RowPlan, rows, i), RowPlan(row));
  }

  /** `Set value in field <objectField> <value> <fieldtype> <field>`: one
      `setValueInObjectFieldType` per row, in row order. */
  method SetValueTable(b: Browser, rows: seq<FieldRow>)
    modifies b
    ensures b.trace == old(b.trace) + Plans(RowPlan, rows, |rows|)
  {
    ghost var trace0 := b.trace;
    for i := 0 to |rows|
      invariant b.trace == trace0 + Plans(RowPlan, rows, i)
    {
      SetRow(b, trace0, rows, i);
    }
  }
}
