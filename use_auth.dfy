/**
 * The sign-in and sign-up flow of the authentication hook: raise the loading
 * flag, call the server action with the credentials, and, when it succeeds,
 * decide where the user goes: a new project made from the anonymous work, the
 * most recent existing project, or a new empty project. The flag is lowered on
 * every way out. Every call into a collaborator (the action, the anonymous-work
 * tracker, the project store, the router) and every change of the flag is
 * recorded, in order, in a trace; the collaborators' answers are inputs.
 */
module UseAuth {
  import opened Wrappers
  import opened JsString
  import opened ChatTypes

  /** Which server action the hook calls. */
  datatype AuthKind = SignInAction | SignUpAction

  /** What a server action returns. */
  datatype AuthResult = AuthResult(success: bool, error: Option<string>)

  /** How the server action settled: it returned a result, or it threw. */
  datatype ActionOutcome = Returned(result: AuthResult) | Threw(reason: string)

  /** The anonymous work buffer `{ messages, fileSystemData }`. */
  datatype AnonWork = AnonWork(messages: seq<UIMessage>, fileSystemData: Snapshot)

  /** A project of the signed-in user, as the project list gives it. */
  datatype ProjectRef = ProjectRef(id: string)

  /**
   * The collaborators' answers during one run: the anonymous buffer (`null` is
   * `None`), the user's projects, most recent first, the id `createProject`
   * returns, the clock text and the random number used in project names.
   */
  datatype Collaborators = Collaborators(
    anonWork: Option<AnonWork>,
    projects: seq<ProjectRef>,
    createdId: string,
    timeText: string,
    designNumber: nat)

  /** One step the hook takes that someone else can observe. */
  datatype AuthEffect =
    | LoadingChanged(isLoading: bool)
    | CallAction(kind: AuthKind, email: string, password: string)
    | ReadAnonWork
    | CreateProject(name: string, messages: seq<UIMessage>, data: Snapshot)
    | ClearAnonWork
    | ListProjects
    | Navigate(url: string)

  /** The three ways a successful sign-in ends. */
  datatype Migration = FromAnonWork | ToMostRecent | CreatedEmpty

  /** An anonymous buffer is used only when it exists and holds at least one message. */
  predicate UsableAnonWork(anonWork: Option<AnonWork>) {
    anonWork.Some? && |anonWork.value.messages| > 0
  }

  /** The server action returned `success: true`. */
  predicate Succeeded(outcome: ActionOutcome) {
    outcome.Returned? && outcome.result.success
  }

  /** Which of the three ends a successful sign-in takes. */
  function Decide(anonWork: Option<AnonWork>, projects: seq<ProjectRef>): (m: Migration)
    ensures m == FromAnonWork <==> UsableAnonWork(anonWork)
    ensures m == ToMostRecent <==> !UsableAnonWork(anonWork) && projects != []
    ensures m == CreatedEmpty <==> !UsableAnonWork(anonWork) && projects == []
  {
    if UsableAnonWork(anonWork) then FromAnonWork
    else if |projects| > 0 then ToMostRecent
    else CreatedEmpty
  }

  /** The name of a project made from anonymous work: "Design from " and the clock text. */
  function DesignFromName(timeText: string): string {
    "Design from " + timeText
  }

  /** The name of a new empty project: "New Design #" and one or more decimal digits. */
  function NewDesignName(n: nat): (name: string)
    ensures |name| > 12 && name[..12] == "New Design #"
    ensures forall i :: 12 <= i < |name| ==> IsDigit(name[i])
    ensures DecimalValue(name[12..]) == n
  {
    var digits := DecimalString(n);
    assert ("New Design #" + digits)[12..] == digits;
    "New Design #" + digits
  }

  /** The route of a project. */
  function ProjectUrl(id: string): string {
    "/" + id
  }

  /** What happens after a successful action, in order. */
  function MigrationEffects(c: Collaborators): seq<AuthEffect> {
    [ReadAnonWork] +
    match Decide(c.anonWork, c.projects)
    case FromAnonWork =>
      [ CreateProject(DesignFromName(c.timeText), c.anonWork.value.messages, c.anonWork.value.fileSystemData),
        ClearAnonWork,
        Navigate(ProjectUrl(c.createdId)) ]
    case ToMostRecent =>
      [ListProjects, Navigate(ProjectUrl(c.projects[0].id))]
    case CreatedEmpty =>
      [ListProjects, CreateProject(NewDesignName(c.designNumber), [], map[]), Navigate(ProjectUrl(c.createdId))]
  }

  /** What the hook does before the action settles. */
  function StartEffects(kind: AuthKind, email: string, password: string): seq<AuthEffect> {
    [LoadingChanged(true), CallAction(kind, email, password)]
  }

  /** What the hook does once the action has settled. */
  function SettleEffects(outcome: ActionOutcome, c: Collaborators): seq<AuthEffect> {
    (if Succeeded(outcome) then MigrationEffects(c) else []) + [LoadingChanged(false)]
  }

  /** The whole run of `signIn` or `signUp`. */
  function AuthTrace(kind: AuthKind, email: string, password: string, outcome: ActionOutcome, c: Collaborators): seq<AuthEffect> {
    StartEffects(kind, email, password) + SettleEffects(outcome, c)
  }

  /** The routes a trace navigates to, in order. */
  function Navigations(trace: seq<AuthEffect>): (urls: seq<string>)
    ensures forall url :: url in urls <==> Navigate(url) in trace
  {
    if trace == [] then []
    else
      var rest := Navigations(trace[1..]);
      assert forall e :: e in trace <==> e == trace[0] || e in trace[1..];
      if trace[0].Navigate? then [trace[0].url] + rest else rest
  }

  /** Unfolds `Navigations` over the first step of a trace. */
  lemma NavigationsCons(e: AuthEffect, rest: seq<AuthEffect>)
    ensures Navigations([e] + rest) == (if e.Navigate? then [e.url] else []) + Navigations(rest)
  {
    assert ([e] + rest)[1..] == rest;
  }

  lemma {:induction false} NavigationsAppend(a: seq<AuthEffect>, b: seq<AuthEffect>)
    ensures Navigations(a + b) == Navigations(a) + Navigations(b)
  {
    if a != [] {
      assert a + b == [a[0]] + (a[1..] + b);
      assert a == [a[0]] + a[1..];
      NavigationsCons(a[0], a[1..] + b);
      NavigationsCons(a[0], a[1..]);
      NavigationsAppend(a[1..], b);
    } else {
      assert a + b == b;
    }
  }

  /**
   * The loading flag brackets the run: it is raised first, the action is called
   * next with the credentials as given, it is lowered last whatever the outcome,
   * and it does not change in between.
   */
  lemma LoadingBracketsRun(kind: AuthKind, email: string, password: string, outcome: ActionOutcome, c: Collaborators)
    ensures var trace := AuthTrace(kind, email, password, outcome, c);
      && |trace| >= 3
      && trace[0] == LoadingChanged(true)
      && trace[1] == CallAction(kind, email, password)
      && trace[|trace| - 1] == LoadingChanged(false)
      && forall i :: 1 <= i < |trace| - 1 ==> !trace[i].LoadingChanged?
  {
  }

  /** The id of the project a successful run opens. */
  function Destination(c: Collaborators): string {
    match Decide(c.anonWork, c.projects)
    case FromAnonWork => c.createdId
    case ToMostRecent => c.projects[0].id
    case CreatedEmpty => c.createdId
  }

  /** After a successful action the hook navigates exactly once, to the destination. */
  lemma MigrationNavigatesOnce(c: Collaborators)
    ensures Navigations(MigrationEffects(c)) == [ProjectUrl(Destination(c))]
  {
    var m := MigrationEffects(c);
    var url := ProjectUrl(Destination(c));
    NavigationsCons(ReadAnonWork, m[1..]);
    assert m == [ReadAnonWork] + m[1..];
    NavigationsCons(Navigate(url), []);
    match Decide(c.anonWork, c.projects)
    case FromAnonWork =>
      assert m[1..] == [m[1]] + ([ClearAnonWork] + [Navigate(url)]);
      NavigationsCons(m[1], [ClearAnonWork] + [Navigate(url)]);
      NavigationsCons(ClearAnonWork, [Navigate(url)]);
    case ToMostRecent =>
      assert m[1..] == [ListProjects] + [Navigate(url)];
      NavigationsCons(ListProjects, [Navigate(url)]);
    case CreatedEmpty =>
      assert m[1..] == [ListProjects] + ([m[2]] + [Navigate(url)]);
      NavigationsCons(ListProjects, [m[2]] + [Navigate(url)]);
      NavigationsCons(m[2], [Navigate(url)]);
  }

  /**
   * A run navigates exactly once when the action succeeds and never otherwise:
   * to the project made from the anonymous work, to the most recent project, or
   * to the new empty project.
   */
  lemma NavigatesOnlyOnSuccess(kind: AuthKind, email: string, password: string, outcome: ActionOutcome, c: Collaborators)
    ensures !Succeeded(outcome) ==> Navigations(AuthTrace(kind, email, password, outcome, c)) == []
    ensures Succeeded(outcome) ==> Navigations(AuthTrace(kind, email, password, outcome, c)) == [ProjectUrl(Destination(c))]
  {
    var start := StartEffects(kind, email, password);
    var migration := if Succeeded(outcome) then MigrationEffects(c) else [];
    assert AuthTrace(kind, email, password, outcome, c) == start + (migration + [LoadingChanged(false)]);
    NavigationsAppend(start, migration + [LoadingChanged(false)]);
    NavigationsAppend(migration, [LoadingChanged(false)]);
    NavigationsCons(LoadingChanged(false), []);
    NavigationsCons(LoadingChanged(true), [start[1]]);
    NavigationsCons(start[1], []);
    assert start == [LoadingChanged(true)] + [start[1]];
    if Succeeded(outcome) {
      MigrationNavigatesOnce(c);
    }
  }

  /** An action that fails or throws leaves projects, the buffer and the route alone. */
  lemma FailureOnlyTogglesLoading(kind: AuthKind, email: string, password: string, outcome: ActionOutcome, c: Collaborators)
    requires !Succeeded(outcome)
    ensures AuthTrace(kind, email, password, outcome, c)
      == [LoadingChanged(true), CallAction(kind, email, password), LoadingChanged(false)]
  {
  }

  /** The buffer is cleared exactly when the action succeeds and the buffer holds messages. */
  lemma ClearsBufferIffUsed(kind: AuthKind, email: string, password: string, outcome: ActionOutcome, c: Collaborators)
    ensures ClearAnonWork in AuthTrace(kind, email, password, outcome, c)
      <==> Succeeded(outcome) && UsableAnonWork(c.anonWork)
  {
  }

  /**
   * With a usable buffer, the project is created from the buffer's messages and
   * files under "Design from ...", then the buffer is cleared, then the user is
   * sent to the new project; the project list is never asked for.
   */
  lemma MigratesAnonWork(kind: AuthKind, email: string, password: string, outcome: ActionOutcome, c: Collaborators)
    requires Succeeded(outcome) && UsableAnonWork(c.anonWork)
    ensures AuthTrace(kind, email, password, outcome, c)
      == StartEffects(kind, email, password)
      + [ ReadAnonWork,
          CreateProject(DesignFromName(c.timeText), c.anonWork.value.messages, c.anonWork.value.fileSystemData),
          ClearAnonWork,
          Navigate(ProjectUrl(c.createdId)),
          LoadingChanged(false) ]
    ensures ListProjects !in AuthTrace(kind, email, password, outcome, c)
  {
  }

  /**
   * Without a usable buffer the project list is asked for and the buffer is not
   * cleared; with projects the user goes to the first one and nothing is created,
   * and with none an empty "New Design #n" project is created and opened.
   */
  lemma FallsBackToProjects(kind: AuthKind, email: string, password: string, outcome: ActionOutcome, c: Collaborators)
    requires Succeeded(outcome) && !UsableAnonWork(c.anonWork)
    ensures var trace := AuthTrace(kind, email, password, outcome, c);
      && ListProjects in trace && ClearAnonWork !in trace
      && (|c.projects| > 0 ==>
            Navigate(ProjectUrl(c.projects[0].id)) in trace && forall e :: e in trace ==> !e.CreateProject?)
      && (c.projects == [] ==>
            CreateProject(NewDesignName(c.designNumber), [], map[]) in trace && Navigate(ProjectUrl(c.createdId)) in trace)
  {
  }

  /** One mounted authentication hook. */
  class AuthHook {
    var isLoading: bool
    var trace: seq<AuthEffect>

    /** The loading flag starts lowered. */
    constructor ()
      ensures !isLoading && trace == []
    {
      isLoading := false;
      trace := [];
    }

    /** Up to the await: raise the flag and call the action with the credentials. */
    method Begin(kind: AuthKind, email: string, password: string)
      modifies this
      ensures isLoading
      ensures trace == old(trace) + StartEffects(kind, email, password)
    {
      isLoading := true;
      trace := trace + [LoadingChanged(true)];
      trace := trace + [CallAction(kind, email, password)];
    }

    /**
     * After the await: on success run the migration, then lower the flag on every
     * way out and hand back what the action gave (a thrown error is thrown on).
     */
    method Settle(outcome: ActionOutcome, c: Collaborators) returns (r: ActionOutcome)
      modifies this
      ensures r == outcome
      ensures !isLoading
      ensures trace == old(trace) + SettleEffects(outcome, c)
    {
      var steps: seq<AuthEffect> := [];
      if Succeeded(outcome) {
        steps := [ReadAnonWork];
        var anonWork := c.anonWork;
        if anonWork.Some? && |anonWork.value.messages| > 0 {
          var created := CreateProject(DesignFromName(c.timeText), anonWork.value.messages, anonWork.value.fileSystemData);
          steps := steps + [created, ClearAnonWork, Navigate(ProjectUrl(c.createdId))];
        } else {
          steps := steps + [ListProjects];
          var projects := c.projects;
          if |projects| > 0 {
            steps := steps + [Navigate(ProjectUrl(projects[0].id))];
          } else {
            var created := CreateProject(NewDesignName(c.designNumber), [], map[]);
            steps := steps + [created, Navigate(ProjectUrl(c.createdId))];
          }
        }
        assert steps == MigrationEffects(c);
      }
      isLoading := false;
      trace := trace + (steps + [LoadingChanged(false)]);
      r := outcome;
    }

    /** `signIn(email, password)`. */
    method SignIn(email: string, password: string, outcome: ActionOutcome, c: Collaborators) returns (r: ActionOutcome)
      modifies this
      ensures r == outcome
      ensures !isLoading
      ensures trace == old(trace) + AuthTrace(SignInAction, email, password, outcome, c)
    {
      Begin(SignInAction, email, password);
      r := Settle(outcome, c);
    }

    /** `signUp(email, password)`. */
    method SignUp(email: string, password: string, outcome: ActionOutcome, c: Collaborators) returns (r: ActionOutcome)
      modifies this
      ensures r == outcome
      ensures !isLoading
      ensures trace == old(trace) + AuthTrace(SignUpAction, email, password, outcome, c)
    {
      Begin(SignUpAction, email, password);
      r := Settle(outcome, c);
    }
  }

  /** The flag is lowered before a call, raised while the action is pending, and lowered once it settles. */
  method LoadingScenario(kind: AuthKind, outcome: ActionOutcome, c: Collaborators)
    returns (before: bool, pending: bool, after: bool)
    ensures !before && pending && !after
  {
    var hook := new AuthHook();
    before := hook.isLoading;
    hook.Begin(kind, "test@example.com", "password123");
    pending := hook.isLoading;
    var _ := hook.Settle(outcome, c);
    after := hook.isLoading;
  }

  /** A failed sign-in returns the action's result as it was and navigates nowhere. */
  method FailedSignInScenario(c: Collaborators) returns (r: ActionOutcome, urls: seq<string>)
    ensures r == Returned(AuthResult(false, Some("Invalid credentials")))
    ensures urls == []
  {
    var hook := new AuthHook();
    var outcome := Returned(AuthResult(false, Some("Invalid credentials")));
    r := hook.SignIn("test@example.com", "wrongpassword", outcome, c);
    assert hook.trace == AuthTrace(SignInAction, "test@example.com", "wrongpassword", outcome, c);
    NavigatesOnlyOnSuccess(SignInAction, "test@example.com", "wrongpassword", outcome, c);
    urls := Navigations(hook.trace);
  }

  /** A buffer holding one message becomes the new project, and the user is sent there. */
  method AnonWorkSignInScenario(message: UIMessage, files: Snapshot, timeText: string, n: nat)
    returns (trace: seq<AuthEffect>)
    ensures CreateProject(DesignFromName(timeText), [message], files) in trace
    ensures ClearAnonWork in trace
    ensures Navigations(trace) == [ProjectUrl("new-project-123")]
  {
    var hook := new AuthHook();
    var c := Collaborators(Some(AnonWork([message], files)), [], "new-project-123", timeText, n);
    var outcome := Returned(AuthResult(true, None));
    var _ := hook.SignIn("test@example.com", "password123", outcome, c);
    trace := hook.trace;
    assert trace == AuthTrace(SignInAction, "test@example.com", "password123", outcome, c);
    MigratesAnonWork(SignInAction, "test@example.com", "password123", outcome, c);
    NavigatesOnlyOnSuccess(SignInAction, "test@example.com", "password123", outcome, c);
  }

  /** A buffer without messages is ignored: the user is sent to the existing project and nothing is created. */
  method ExistingProjectScenario(files: Snapshot, createdId: string, timeText: string, n: nat) returns (trace: seq<AuthEffect>)
    ensures ClearAnonWork !in trace && ListProjects in trace
    ensures forall e :: e in trace ==> !e.CreateProject?
    ensures Navigations(trace) == [ProjectUrl("existing-project")]
  {
    var hook := new AuthHook();
    var c := Collaborators(Some(AnonWork([], files)), [ProjectRef("existing-project")], createdId, timeText, n);
    var outcome := Returned(AuthResult(true, None));
    var _ := hook.SignIn("test@example.com", "password123", outcome, c);
    trace := hook.trace;
    assert trace == AuthTrace(SignInAction, "test@example.com", "password123", outcome, c);
    FallsBackToProjects(SignInAction, "test@example.com", "password123", outcome, c);
    NavigatesOnlyOnSuccess(SignInAction, "test@example.com", "password123", outcome, c);
  }

  /** With no buffer and no projects, an empty "New Design #n" project is created and opened. */
  method NoProjectsScenario(timeText: string, n: nat) returns (trace: seq<AuthEffect>)
    ensures CreateProject(NewDesignName(n), [], map[]) in trace
    ensures Navigations(trace) == [ProjectUrl("fresh-project")]
  {
    var hook := new AuthHook();
    var c := Collaborators(None, [], "fresh-project", timeText, n);
    var outcome := Returned(AuthResult(true, None));
    var _ := hook.SignUp("new@example.com", "password123", outcome, c);
    trace := hook.trace;
    assert trace == AuthTrace(SignUpAction, "new@example.com", "password123", outcome, c);
    FallsBackToProjects(SignUpAction, "new@example.com", "password123", outcome, c);
    NavigatesOnlyOnSuccess(SignUpAction, "new@example.com", "password123", outcome, c);
  }
}
