/** The GitHub callback and its three doors: which browser ends up signed in as whom, over every
    run of sign-in attempts, callbacks and expiries. */
module Callbacks {
  import opened Common
  import A = Accounts

  // ----- what a request carries -----

  /** A desktop state signed by this server; `stale` when too old or without a nonce. */
  datatype DesktopState = DesktopState(nonce: string, stale: bool)

  /** The cookies a browser sends: the account its session cookie names (if it still verifies), the
      website attempt (`Some(None)` when present but forged or too old), the desktop flow nonce. */
  datatype Cookies = Cookies(session: Option<A.UserId>, website: Option<Option<string>>, flow: Option<string>)

  /** A header value after `urlparse`. */
  datatype Url = Url(scheme: string, host: Option<string>, credentials: bool, path: string, query: string, fragment: string)

  datatype Query = Query(
    code: Option<string>, state: Option<string>, desktop: Option<DesktopState>, error: Option<string>,
    installation: Option<A.InstallationId>, origin: Option<Url>)

  /** GitHub's side of the exchange: it refuses the code, or names a person and their installations. */
  datatype Github = Refuses | Person(who: A.Identity, discovered: seq<A.InstallationId>, newId: A.UserId)

  datatype Page =
    | NotFound | ServerError | BadRequest
    | Frontend | SignInError(reason: string) | SignInDone
    | DesktopDone | DesktopError(reason: string)

  datatype Answer = Answer(cookies: Cookies, tables: A.Tables, page: Page)

  predicate AllowedLoopback(u: Url) {
    && u.scheme == "http" && (u.host == Some("127.0.0.1") || u.host == Some("localhost"))
    && !u.credentials && (u.path == "" || u.path == "/") && u.query == "" && u.fragment == ""
  }

  predicate FromLoopback(q: Query) {
    q.origin.Some? && AllowedLoopback(q.origin.value)
  }

  /** A query value that is neither absent nor empty. */
  predicate Given(s: Option<string>) {
    s.Some? && s.value != ""
  }

  predicate FlowMatches(cookie: Option<string>, nonce: string) {
    Given(cookie) && cookie.value == nonce
  }

  // ----- the branches, as functions of cookies and tables -----

  /** `_complete_github_sign_in`: `BadRequest` when GitHub refuses, `Failed` when a unique key is hit. */
  function Complete(t: A.Tables, q: Query, g: Github): (A.Tables, A.Reply) {
    if g.Refuses? then (t, A.BadRequest) else A.SignIn(t, g.who, q.installation, g.discovered, g.newId)
  }

  function DesktopCallback(c: Cookies, t: A.Tables, q: Query, g: Github): Answer
    requires q.desktop.Some?
  {
    var d := q.desktop.value;
    if d.stale || !FlowMatches(c.flow, d.nonce) then Answer(c, t, DesktopError("expired"))
    else if q.error == Some("access_denied") then Answer(c.(flow := None), t, DesktopError("cancelled"))
    else if Given(q.error) || !Given(q.code) then Answer(c.(flow := None), t, DesktopError("failed"))
    else
      var (after, reply) := Complete(t, q, g);
      match reply
      case Ok(id) => Answer(c.(session := Some(id), flow := None), after, DesktopDone)
      case BadRequest => Answer(c, t, DesktopError("failed"))
      case _ => Answer(c, t, ServerError)
  }

  function WebsiteCallback(c: Cookies, t: A.Tables, q: Query, g: Github): Answer
    requires c.website.Some?
  {
    var cleared := c.(website := None);
    var nonce := c.website.value;
    if Given(q.error) then Answer(cleared, t, SignInError(if q.error.value == "access_denied" then "cancelled" else "failed"))
    else if nonce.None? || q.state != nonce then Answer(cleared, t, SignInError("expired"))
    else if !Given(q.code) then Answer(cleared, t, SignInError("failed"))
    else
      var (after, reply) := Complete(t, q, g);
      match reply
      case Ok(id) => Answer(cleared.(session := Some(id)), after, SignInDone)
      case BadRequest => Answer(cleared, t, SignInError("failed"))
      case _ => Answer(c, t, ServerError)
  }

  function PlainCallback(c: Cookies, t: A.Tables, q: Query, g: Github): Answer {
    if !Given(q.code) then Answer(c, t, Frontend)
    else if !FromLoopback(q) && c.session.None? then Answer(c, t, SignInError("expired"))
    else
      var (after, reply) := Complete(t, q, g);
      match reply
      case Ok(id) =>
        Answer(if FromLoopback(q) || c.session == Some(id) then c.(session := Some(id)) else c, after, Frontend)
      case BadRequest => Answer(c, t, BadRequest)
      case _ => Answer(c, t, ServerError)
  }

  function GithubCallback(hosted: bool, c: Cookies, t: A.Tables, q: Query, g: Github): Answer {
    if !hosted then Answer(c, t, NotFound)
    else if q.desktop.Some? then DesktopCallback(c, t, q, g)
    else if c.website.Some? then WebsiteCallback(c, t, q, g)
    else PlainCallback(c, t, q, g)
  }

  // ----- the routes: cookies and rows changed in place -----

  class CookieJar {
    var session: Option<A.UserId>
    var website: Option<Option<string>>
    var flow: Option<string>

    function Contents(): Cookies
      reads this
    {
      Cookies(session, website, flow)
    }

    constructor ()
      ensures Contents() == Cookies(None, None, None)
    {
      session, website, flow := None, None, None;
    }

    method CompleteSignIn(store: A.AccountStore, q: Query, g: Github) returns (reply: A.Reply)
      modifies store
      ensures (store.Contents(), reply) == Complete(old(store.Contents()), q, g)
    {
      match g {
        case Refuses => reply := A.BadRequest;
        case Person(who, discovered, newId) => reply := store.CompleteGithubSignIn(who, q.installation, discovered, newId);
      }
    }

    method AnswerDesktop(store: A.AccountStore, q: Query, g: Github) returns (page: Page)
      requires q.desktop.Some?
      modifies this, store
      ensures Answer(Contents(), store.Contents(), page) == DesktopCallback(old(Contents()), old(store.Contents()), q, g)
    {
      if q.desktop.value.stale || !FlowMatches(flow, q.desktop.value.nonce) {
        return DesktopError("expired");
      }
      if q.error == Some("access_denied") {
        flow := None;
        return DesktopError("cancelled");
      }
      if Given(q.error) || !Given(q.code) {
        flow := None;
        return DesktopError("failed");
      }
      var reply := CompleteSignIn(store, q, g);
      match reply {
        case Ok(id) =>
          session := Some(id);
          flow := None;
          page := DesktopDone;
        case BadRequest => page := DesktopError("failed");
        case _ => page := ServerError;
      }
    }

    method AnswerWebsite(store: A.AccountStore, q: Query, g: Github) returns (page: Page)
      requires website.Some?
      modifies this, store
      ensures Answer(Contents(), store.Contents(), page) == WebsiteCallback(old(Contents()), old(store.Contents()), q, g)
    {
      var nonce := website.value;
      var user: Option<A.UserId> := None;
      if Given(q.error) {
        page := SignInError(if q.error.value == "access_denied" then "cancelled" else "failed");
      } else if nonce.None? || q.state != nonce {
        page := SignInError("expired");
      } else if !Given(q.code) {
        page := SignInError("failed");
      } else {
        var reply := CompleteSignIn(store, q, g);
        match reply {
          case Ok(id) => user := Some(id);
          case BadRequest =>
          case _ => return ServerError;
        }
        page := if user.Some? then SignInDone else SignInError("failed");
      }
      website := None;
      if user.Some? {
        session := user;
      }
    }

    method AnswerGithub(hosted: bool, store: A.AccountStore, q: Query, g: Github) returns (page: Page)
      modifies this, store
      ensures Answer(Contents(), store.Contents(), page) == GithubCallback(hosted, old(Contents()), old(store.Contents()), q, g)
    {
      if !hosted {
        return NotFound;
      }
      if q.desktop.Some? {
        page := AnswerDesktop(store, q, g);
        return;
      }
      if website.Some? {
        page := AnswerWebsite(store, q, g);
        return;
      }
      if !Given(q.code) {
        return Frontend;
      }
      var current: Option<A.UserId> := None;
      if !FromLoopback(q) {
        current := session;
        if current.None? {
          return SignInError("expired");
        }
      }
      var reply := CompleteSignIn(store, q, g);
      match reply {
        case Ok(id) =>
          if current.None? || current == Some(id) {
            session := Some(id);
          }
          page := Frontend;
        case BadRequest => page := BadRequest;
        case _ => page := ServerError;
      }
    }
  }

  // ----- one callback -----

  /** The desktop door: a young state, in the browser that started the flow. */
  predicate DesktopDoor(c: Cookies, q: Query) {
    && q.desktop.Some? && !q.desktop.value.stale && q.desktop.value.nonce != ""
    && c.flow == Some(q.desktop.value.nonce) && !Given(q.error)
  }

  /** The website door: GitHub's `state` is the nonce of this browser's own attempt. */
  predicate WebsiteDoor(c: Cookies, q: Query) {
    q.desktop.None? && q.state.Some? && c.website == Some(q.state) && !Given(q.error)
  }

  /** The loopback door of older desktop clients: a plain callback proxied from this machine, over
      http, without credentials, path, query or fragment. */
  predicate LoopbackDoor(c: Cookies, q: Query) {
    && q.desktop.None? && c.website.None? && q.origin.Some?
    && var u := q.origin.value;
       && u.scheme == "http" && (u.host == Some("127.0.0.1") || u.host == Some("localhost"))
       && !u.credentials && (u.path == "" || u.path == "/") && u.query == "" && u.fragment == ""
  }

  predicate SomeDoor(c: Cookies, q: Query) {
    DesktopDoor(c, q) || WebsiteDoor(c, q) || LoopbackDoor(c, q)
  }

  /** A callback makes a browser another account's exactly when the code exchange produced that
      account and the callback came through one of the three doors. */
  lemma {:induction false} SessionChangesIff(hosted: bool, c: Cookies, t: A.Tables, q: Query, g: Github, id: A.UserId)
    requires c.session != Some(id)
    ensures
      GithubCallback(hosted, c, t, q, g).cookies.session == Some(id) <==>
      hosted && Given(q.code) && SomeDoor(c, q) && Complete(t, q, g).1 == A.Ok(id)
  {
    if hosted && q.desktop.Some? {
      assert GithubCallback(hosted, c, t, q, g) == DesktopCallback(c, t, q, g);
    } else if hosted && c.website.Some? {
      assert GithubCallback(hosted, c, t, q, g) == WebsiteCallback(c, t, q, g);
    }
  }

  /** A callback never signs a browser out. */
  lemma {:induction false} NeverSignedOut(hosted: bool, c: Cookies, t: A.Tables, q: Query, g: Github)
    requires c.session.Some?
    ensures GithubCallback(hosted, c, t, q, g).cookies.session.Some?
  {
    if hosted && q.desktop.Some? {
      assert GithubCallback(hosted, c, t, q, g) == DesktopCallback(c, t, q, g);
    }
  }

  /** The account tables change only by a completed exchange, and then only for a browser that came
      through a door or was signed in already. */
  lemma {:induction false} RowsChangeOnlyByExchange(hosted: bool, c: Cookies, t: A.Tables, q: Query, g: Github)
    ensures
      var after := GithubCallback(hosted, c, t, q, g).tables;
      after != t ==>
        hosted && Given(q.code) && after == Complete(t, q, g).0 && Complete(t, q, g).1.Ok? && (SomeDoor(c, q) || c.session.Some?)
  {
    if hosted && q.desktop.Some? {
      assert GithubCallback(hosted, c, t, q, g) == DesktopCallback(c, t, q, g);
    } else if hosted && c.website.Some? {
      assert GithubCallback(hosted, c, t, q, g) == WebsiteCallback(c, t, q, g);
    }
  }

  // ----- runs of one browser -----

  datatype Event =
    | StartWebsite(nonce: string)
    | StartDesktop(nonce: string)
    | PasswordSignIn(id: A.UserId)
    | Logout
    | SessionExpires
    | WebsiteExpires(gone: bool)
    | FlowExpires
    | OtherBrowser(tables: A.Tables)
    | Returns(q: Query, g: Github)

  datatype State = State(cookies: Cookies, tables: A.Tables)

  function Step(hosted: bool, s: State, e: Event): State {
    var c := s.cookies;
    match e
    case StartWebsite(nonce) => s.(cookies := c.(website := Some(Some(nonce))))
    case StartDesktop(nonce) => s.(cookies := c.(flow := Some(nonce)))
    case PasswordSignIn(id) => s.(cookies := c.(session := Some(id)))
    case Logout => s.(cookies := c.(session := None))
    case SessionExpires => s.(cookies := c.(session := None))
    case WebsiteExpires(gone) => s.(cookies := c.(website := if gone || c.website.None? then None else Some(None)))
    case FlowExpires => s.(cookies := c.(flow := None))
    case OtherBrowser(tables) => s.(tables := tables)
    case Returns(q, g) => var a := GithubCallback(hosted, c, s.tables, q, g); State(a.cookies, a.tables)
  }

  function Run(hosted: bool, t: A.Tables, run: seq<Event>): State {
    if run == [] then State(Cookies(None, None, None), t)
    else Step(hosted, Run(hosted, t, run[..|run| - 1]), run[|run| - 1])
  }

  /** This browser started the attempt itself, and it has been open ever since. */
  ghost predicate OwnWebsiteAttempt(hosted: bool, t: A.Tables, run: seq<Event>, nonce: string) {
    exists j | 0 <= j < |run| ::
      run[j] == StartWebsite(nonce) && forall k | j < k <= |run| :: Run(hosted, t, run[..k]).cookies.website == Some(Some(nonce))
  }

  ghost predicate OwnDesktopFlow(hosted: bool, t: A.Tables, run: seq<Event>, nonce: string) {
    exists j | 0 <= j < |run| ::
      run[j] == StartDesktop(nonce) && forall k | j < k <= |run| :: Run(hosted, t, run[..k]).cookies.flow == Some(nonce)
  }

  /** Only the attempt's own start puts a nonce in the website cookie. */
  lemma {:induction false} WebsiteNonceIsOwn(hosted: bool, c: Cookies, t: A.Tables, e: Event, nonce: string)
    requires Step(hosted, State(c, t), e).cookies.website == Some(Some(nonce)) && e != StartWebsite(nonce)
    ensures c.website == Some(Some(nonce))
  {
    if e.Returns? && hosted && e.q.desktop.Some? {
      assert Step(hosted, State(c, t), e).cookies == DesktopCallback(c, t, e.q, e.g).cookies;
    }
  }

  lemma {:induction false} FlowNonceIsOwn(hosted: bool, c: Cookies, t: A.Tables, e: Event, nonce: string)
    requires Step(hosted, State(c, t), e).cookies.flow == Some(nonce) && e != StartDesktop(nonce)
    ensures c.flow == Some(nonce)
  {
    if e.Returns? && hosted && e.q.desktop.Some? {
      assert Step(hosted, State(c, t), e).cookies == DesktopCallback(c, t, e.q, e.g).cookies;
    }
  }

  lemma {:induction false} OpenAttemptIsOwn(hosted: bool, t: A.Tables, run: seq<Event>, nonce: string)
    requires Run(hosted, t, run).cookies.website == Some(Some(nonce))
    ensures OwnWebsiteAttempt(hosted, t, run, nonce)
  {
    if run != [] {
      var m := |run| - 1;
      var before := run[..m];
      assert run[..|run|] == run;
      var s := Run(hosted, t, before);
      if run[m] == StartWebsite(nonce) {
        assert forall k | m < k <= |run| :: run[..k] == run;
      } else {
        WebsiteNonceIsOwn(hosted, s.cookies, s.tables, run[m], nonce);
        OpenAttemptIsOwn(hosted, t, before, nonce);
        var j :| 0 <= j < m && before[j] == StartWebsite(nonce)
          && forall k | j < k <= m :: Run(hosted, t, before[..k]).cookies.website == Some(Some(nonce));
        forall k | j < k <= |run| ensures Run(hosted, t, run[..k]).cookies.website == Some(Some(nonce)) {
          if k <= m {
            assert run[..k] == before[..k];
          }
        }
        assert run[j] == StartWebsite(nonce);
      }
    }
  }

  lemma {:induction false} OpenFlowIsOwn(hosted: bool, t: A.Tables, run: seq<Event>, nonce: string)
    requires Run(hosted, t, run).cookies.flow == Some(nonce)
    ensures OwnDesktopFlow(hosted, t, run, nonce)
  {
    if run != [] {
      var m := |run| - 1;
      var before := run[..m];
      assert run[..|run|] == run;
      var s := Run(hosted, t, before);
      if run[m] == StartDesktop(nonce) {
        assert forall k | m < k <= |run| :: run[..k] == run;
      } else {
        FlowNonceIsOwn(hosted, s.cookies, s.tables, run[m], nonce);
        OpenFlowIsOwn(hosted, t, before, nonce);
        var j :| 0 <= j < m && before[j] == StartDesktop(nonce)
          && forall k | j < k <= m :: Run(hosted, t, before[..k]).cookies.flow == Some(nonce);
        forall k | j < k <= |run| ensures Run(hosted, t, run[..k]).cookies.flow == Some(nonce) {
          if k <= m {
            assert run[..k] == before[..k];
          }
        }
        assert run[j] == StartDesktop(nonce);
      }
    }
  }

  /** Over every run, whoever writes the query strings: a callback that changes the account of a
      browser either comes through the allow-listed loopback proxy, or finishes an attempt this very
      browser started and that has been open since; and the account is the one the code exchange
      produced. */
  lemma {:induction false} OnlyOwnAttemptsSignIn(hosted: bool, t: A.Tables, run: seq<Event>, q: Query, g: Github)
    requires Run(hosted, t, run + [Returns(q, g)]).cookies.session != Run(hosted, t, run).cookies.session
    ensures
      var s := Run(hosted, t, run);
      var after := Run(hosted, t, run + [Returns(q, g)]).cookies.session;
      && after.Some? && Complete(s.tables, q, g).1 == A.Ok(after.value)
      && (|| LoopbackDoor(s.cookies, q)
          || (q.state.Some? && OwnWebsiteAttempt(hosted, t, run, q.state.value))
          || (q.desktop.Some? && OwnDesktopFlow(hosted, t, run, q.desktop.value.nonce)))
  {
    var s := Run(hosted, t, run);
    var all := run + [Returns(q, g)];
    assert all[..|all| - 1] == run;
    var after := Run(hosted, t, all).cookies.session;
    if s.cookies.session.Some? {
      NeverSignedOut(hosted, s.cookies, s.tables, q, g);
    }
    SessionChangesIff(hosted, s.cookies, s.tables, q, g, after.value);
    if WebsiteDoor(s.cookies, q) {
      OpenAttemptIsOwn(hosted, t, run, q.state.value);
    } else if DesktopDoor(s.cookies, q) {
      OpenFlowIsOwn(hosted, t, run, q.desktop.value.nonce);
    }
  }

  /** An attempt signs in at most once: the callback that used it closes it, so the same callback
      replayed, in any later run that never draws the same nonce again, leaves the browser's account as
      it is. A desktop replay changes nothing at all; a website replay can touch the rows only as any
      plain callback of a signed-in browser can. */
  lemma {:induction false} AttemptIsSingleUse(hosted: bool, t: A.Tables, run: seq<Event>, q: Query, g: Github, later: seq<Event>, again: Github)
    requires var c := Run(hosted, t, run).cookies; WebsiteDoor(c, q) || DesktopDoor(c, q)
    requires hosted && Given(q.code) && Complete(Run(hosted, t, run).tables, q, g).1.Ok?
    requires q.desktop.Some? || !FromLoopback(q)
    requires forall e | e in later :: !Redraws(e, q)
    ensures
      var s := Run(hosted, t, run + [Returns(q, g)] + later);
      var s' := Step(hosted, s, Returns(q, again));
      && s'.cookies.session == s.cookies.session
      && (q.desktop.Some? ==> s' == s)
      && (s.cookies.session.None? || s.cookies.website.Some? ==> s'.tables == s.tables)
  {
    var s := Run(hosted, t, run);
    var used := run + [Returns(q, g)];
    assert used[..|used| - 1] == run;
    if q.desktop.Some? {
      assert Run(hosted, t, used).cookies == DesktopCallback(s.cookies, s.tables, q, g).cookies;
    }
    StaysClosed(hosted, t, used, later, q);
    var final := Run(hosted, t, used + later);
    var after := Step(hosted, final, Returns(q, again)).cookies.session;
    if after != final.cookies.session {
      if final.cookies.session.Some? {
        NeverSignedOut(hosted, final.cookies, final.tables, q, again);
      }
      SessionChangesIff(hosted, final.cookies, final.tables, q, again, after.value);
    }
  }

  /** Another attempt is started with the nonce this callback answers. */
  predicate Redraws(e: Event, q: Query) {
    if q.desktop.Some? then e == StartDesktop(q.desktop.value.nonce) else q.state.Some? && e == StartWebsite(q.state.value)
  }

  predicate Closed(c: Cookies, q: Query) {
    if q.desktop.Some? then c.flow != Some(q.desktop.value.nonce) else q.state.Some? ==> c.website != Some(q.state)
  }

  lemma {:induction false} StaysClosed(hosted: bool, t: A.Tables, run: seq<Event>, later: seq<Event>, q: Query)
    requires forall e | e in later :: !Redraws(e, q)
    requires Closed(Run(hosted, t, run).cookies, q)
    ensures Closed(Run(hosted, t, run + later).cookies, q)
  {
    if later == [] {
      assert run + later == run;
    } else {
      var m := |later| - 1;
      var all := run + later;
      assert all[..|all| - 1] == run + later[..m];
      StaysClosed(hosted, t, run, later[..m], q);
      assert later[m] in later && all[|all| - 1] == later[m];
      var s := Run(hosted, t, run + later[..m]);
      if !Closed(Run(hosted, t, all).cookies, q) {
        if q.desktop.Some? {
          FlowNonceIsOwn(hosted, s.cookies, s.tables, later[m], q.desktop.value.nonce);
        } else {
          WebsiteNonceIsOwn(hosted, s.cookies, s.tables, later[m], q.state.value);
        }
      }
    }
  }
}
