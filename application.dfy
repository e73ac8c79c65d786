/**
 * The embedded identity-server application: the servlet context it is given is
 * wrapped so that the context path and the "keycloak.embedded" init parameter
 * come from the application's own configuration, and on construction it
 * creates the master-realm admin user when none exists. The wrapped servlet
 * context is a function from calls to results; the server's session and
 * transaction are reduced to the steps the bootstrap takes, each of which
 * either succeeds or throws.
 */
module EmbeddedApplication {
  import opened Wrappers

  /** A value passed to or returned by a servlet-context call: null, a string, or some other object. */
  datatype Value = Null | Str(s: string) | Obj(id: int)

  /** A call on the servlet context: the method's name and its arguments. */
  datatype Invocation = Invocation(name: string, args: seq<Value>)

  const EmbeddedParameter: string := "keycloak.embedded"

  /** The configured context path as a call result: null when it is not configured. */
  function ContextPathValue(contextPath: Option<string>): Value {
    match contextPath
    case None => Null
    case Some(p) => Str(p)
  }

  /** The one init-parameter query the wrapper answers itself. */
  predicate IsEmbeddedQuery(call: Invocation) {
    call.name == "getInitParameter" && |call.args| == 1 && call.args[0] == Str(EmbeddedParameter)
  }

  /**
   * The invocation handler of the wrapping proxy: the context path is the
   * configured one, the embedded flag is "true", and every other call goes to
   * the wrapped context with the same arguments.
   */
  function Invoke(contextPath: Option<string>, wrapped: Invocation -> Value, call: Invocation): (r: Value)
    ensures call.name == "getContextPath" ==> r == ContextPathValue(contextPath)
    ensures call.name != "getContextPath" && IsEmbeddedQuery(call) ==> r == Str("true")
    ensures call.name != "getContextPath" && !IsEmbeddedQuery(call) ==> r == wrapped(call)
  {
    if call.name == "getContextPath" then
      ContextPathValue(contextPath)
    else if call.name == "getInitParameter" && |call.args| == 1 && call.args[0] == Str(EmbeddedParameter) then
      Str("true")
    else
      wrapped(call)
  }

  /** The wrapped servlet context as a whole. */
  function Augment(contextPath: Option<string>, wrapped: Invocation -> Value): Invocation -> Value {
    call => Invoke(contextPath, wrapped, call)
  }

  /**
   * The wrapper departs from the wrapped context only on the context path and
   * the embedded flag, and the context path never comes from the wrapped context.
   */
  lemma OnlyTwoCallsOverridden(contextPath: Option<string>, wrapped: Invocation -> Value, call: Invocation)
    ensures Augment(contextPath, wrapped)(call) != wrapped(call) ==>
      call.name == "getContextPath" || IsEmbeddedQuery(call)
    ensures call.name == "getContextPath" ==>
      forall other: Invocation -> Value :: Augment(contextPath, other)(call) == Augment(contextPath, wrapped)(call)
  {
  }

  /** The configured admin user's credentials. */
  datatype AdminUser = AdminUser(username: string, password: string)

  /** The steps of the bootstrap that can throw. */
  datatype Step = Begin | CheckMasterUser | CreateUser | Commit | Rollback

  /**
   * A server session: the master realm's committed users, the users created in
   * the open transaction, whether a transaction is open and whether the session
   * is closed. `failing` names the steps that throw in this session.
   */
  class Session {
    var users: seq<string>
    var pending: seq<string>
    var active: bool
    var closed: bool
    const failing: set<Step>

    constructor (masterUsers: seq<string>, failingSteps: set<Step>)
      ensures users == masterUsers && pending == [] && !active && !closed && failing == failingSteps
    {
      users := masterUsers;
      pending := [];
      active := false;
      closed := false;
      failing := failingSteps;
    }

    method BeginTransaction() returns (ok: bool)
      modifies this
      ensures ok <==> Begin !in failing
      ensures ok ==> active && pending == []
      ensures !ok ==> active == old(active) && pending == old(pending)
      ensures users == old(users) && closed == old(closed)
    {
      ok := Begin !in failing;
      if ok {
        active := true;
        pending := [];
      }
    }

    /** Whether the master realm has no user yet, as the open transaction sees it. */
    method IsNoMasterUser() returns (ok: bool, noUser: bool)
      ensures ok <==> CheckMasterUser !in failing
      ensures ok ==> (noUser <==> users == [] && pending == [])
    {
      ok := CheckMasterUser !in failing;
      noUser := users == [] && pending == [];
    }

    method CreateMasterRealmUser(username: string) returns (ok: bool)
      modifies this
      ensures ok <==> CreateUser !in failing
      ensures pending == if ok then old(pending) + [username] else old(pending)
      ensures users == old(users) && active == old(active) && closed == old(closed)
    {
      ok := CreateUser !in failing;
      if ok {
        pending := pending + [username];
      }
    }

    method CommitTransaction() returns (ok: bool)
      modifies this
      ensures ok <==> Commit !in failing
      ensures ok ==> users == old(users) + old(pending) && pending == [] && !active
      ensures !ok ==> users == old(users) && pending == old(pending) && active == old(active)
      ensures closed == old(closed)
    {
      ok := Commit !in failing;
      if ok {
        users := users + pending;
        pending := [];
        active := false;
      }
    }

    method RollbackTransaction() returns (ok: bool)
      modifies this
      ensures ok <==> Rollback !in failing
      ensures ok ==> pending == [] && !active
      ensures !ok ==> pending == old(pending) && active == old(active)
      ensures users == old(users) && closed == old(closed)
    {
      ok := Rollback !in failing;
      if ok {
        pending := [];
        active := false;
      }
    }

    method Close()
      modifies this
      ensures closed
      ensures users == old(users) && pending == old(pending) && active == old(active)
    {
      closed := true;
    }
  }

  /** The bootstrap's end state: the master realm's users, whether the session was closed, whether an exception escaped. */
  datatype BootstrapResult = BootstrapResult(users: seq<string>, closed: bool, propagated: bool)

  /** Some step inside the try block throws: begin, the check, the creation when it happens, or the commit. */
  predicate TryBlockFails(masterUsers: seq<string>, failing: set<Step>) {
    Begin in failing || CheckMasterUser in failing || (masterUsers == [] && CreateUser in failing) || Commit in failing
  }

  /**
   * The bootstrap as written: on success the admin user exists afterwards, on a
   * failure in the try block nothing is stored, and when the rollback itself
   * throws the exception escapes before the session is closed.
   */
  function Bootstrap(masterUsers: seq<string>, failing: set<Step>, username: string): (r: BootstrapResult)
    ensures r.users == masterUsers || (masterUsers == [] && r.users == [username])
    ensures r.propagated <==> TryBlockFails(masterUsers, failing) && Rollback in failing
    ensures r.closed <==> !r.propagated
  {
    if !TryBlockFails(masterUsers, failing) then
      BootstrapResult(if masterUsers == [] then [username] else masterUsers, true, false)
    else
      BootstrapResult(masterUsers, Rollback !in failing, Rollback in failing)
  }

  /**
   * Creates the admin user only when the master realm has none: running the
   * bootstrap again after a user exists stores nothing new, whatever fails.
   */
  lemma BootstrapIdempotent(
    masterUsers: seq<string>,
    failing1: set<Step>,
    failing2: set<Step>,
    username1: string,
    username2: string)
    ensures var once := Bootstrap(masterUsers, failing1, username1).users;
      once != [] ==> Bootstrap(once, failing2, username2).users == once
  {
  }

  /** With no step failing, the master realm ends with a user and the session is closed. */
  lemma BootstrapSucceeds(masterUsers: seq<string>, username: string)
    ensures Bootstrap(masterUsers, {}, username).users != []
    ensures Bootstrap(masterUsers, {}, username).closed
    ensures masterUsers == [] ==> Bootstrap(masterUsers, {}, username).users == [username]
  {
  }

  /** A failing begin followed by a failing rollback: the exception escapes and the session stays open. */
  lemma RollbackFailureLeavesSessionOpen()
    ensures Bootstrap([], {Begin, Rollback}, "admin").propagated
    ensures !Bootstrap([], {Begin, Rollback}, "admin").closed
  {
  }

  /** The bootstrap with the session closed in a finally block: the same users and exceptions, and always closed. */
  function BootstrapClosing(masterUsers: seq<string>, failing: set<Step>, username: string): (r: BootstrapResult)
    ensures r.closed
    ensures r.users == Bootstrap(masterUsers, failing, username).users
    ensures r.propagated == Bootstrap(masterUsers, failing, username).propagated
  {
    var written := Bootstrap(masterUsers, failing, username);
    BootstrapResult(written.users, true, written.propagated)
  }

  /**
   * tryCreateMasterRealmAdminUser as written: begin, create the admin user if the
   * master realm has none, commit; on any failure roll back; then close the
   * session. A rollback that throws leaves the method before the close.
   */
  method TryCreateMasterRealmAdminUser(masterUsers: seq<string>, failing: set<Step>, admin: AdminUser)
    returns (session: Session, propagated: bool)
    ensures fresh(session)
    ensures session.users == Bootstrap(masterUsers, failing, admin.username).users
    ensures session.closed == Bootstrap(masterUsers, failing, admin.username).closed
    ensures propagated == Bootstrap(masterUsers, failing, admin.username).propagated
    ensures !session.active || propagated
  {
    session := new Session(masterUsers, failing);
    var ok := RunTransaction(session, admin);
    if !ok {
      var rolledBack := session.RollbackTransaction();
      if !rolledBack {
        return session, true;
      }
    }
    session.Close();
    propagated := false;
  }

  /** The same bootstrap with the close in a finally block, so that the session is closed on every path. */
  method TryCreateMasterRealmAdminUserClosing(masterUsers: seq<string>, failing: set<Step>, admin: AdminUser)
    returns (session: Session, propagated: bool)
    ensures fresh(session)
    ensures session.closed
    ensures session.users == BootstrapClosing(masterUsers, failing, admin.username).users
    ensures propagated == BootstrapClosing(masterUsers, failing, admin.username).propagated
  {
    session := new Session(masterUsers, failing);
    propagated := false;
    var ok := RunTransaction(session, admin);
    if !ok {
      var rolledBack := session.RollbackTransaction();
      propagated := !rolledBack;
    }
    session.Close();
  }

  /** The try block: begin, check, create when there is no master user, commit. False when a step throws. */
  method RunTransaction(session: Session, admin: AdminUser) returns (ok: bool)
    requires session.pending == [] && !session.active && !session.closed
    modifies session
    ensures ok <==> !TryBlockFails(old(session.users), session.failing)
    ensures ok ==> session.users == (if old(session.users) == [] then [admin.username] else old(session.users))
    ensures ok ==> !session.active
    ensures !ok ==> session.users == old(session.users)
    ensures !session.closed
  {
    ok := session.BeginTransaction();
    if !ok {
      return;
    }
    var noUser;
    ok, noUser := session.IsNoMasterUser();
    if !ok {
      return;
    }
    if noUser {
      ok := session.CreateMasterRealmUser(admin.username);
      if !ok {
        return;
      }
    }
    ok := session.CommitTransaction();
  }
}
