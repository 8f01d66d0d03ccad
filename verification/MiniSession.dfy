/**
 The Telegram Mini App's session: authenticate once, verify the identity again
 and again, and never come back from an expired or revoked session.
 */
module MiniSession {

  import opened Options
  import opened JsText

  datatype User = User(id: int, email: string, isAdmin: int, isStaff: int)

  datatype Session = Session(token: string, expiresAt: int, user: User)

  predicate IsSafe(n: int) {
    -(MAX_SAFE_INTEGER as int) <= n <= MAX_SAFE_INTEGER
  }

  /** `telegramMiniIdentity` accepts it. */
  predicate ValidUser(u: User) {
    && IsSafe(u.id) && u.id > 0
    && u.isAdmin in {0, 1} && u.isStaff in {0, 1}
    && (u.isAdmin == 1 || u.isStaff == 1)
  }

  predicate Current(s: Session, now: int) {
    s.expiresAt * 1000 > now
  }

  /** `setTelegramMiniSession` accepts it at this time (in milliseconds). */
  predicate Storable(s: Session, now: int) {
    && s.token != "" && (forall c :: c in s.token ==> !IsSpace(c))
    && IsSafe(s.expiresAt) && Current(s, now)
    && ValidUser(s.user)
  }

  datatype Phase = Loading | Outside | Verify | Ready | Invalid

  /**
   The effect's variables, the module's stored session, the phase shown, and the
   identity the workspace is keyed by.
   */
  datatype App = App(
    live: bool, invalid: bool, verifying: bool, auth: Option<Session>,
    session: Option<Session>, phase: Phase, role: Option<User>)

  /** `expire`, the listener of the invalidation event. */
  function Expired(a: App): App {
    a.(invalid := true, auth := None, session := None, phase := if a.live then Invalid else a.phase)
  }

  /** `invalidateTelegramMiniSession`: only a mounted effect listens. */
  function Invalidated(a: App): App {
    if a.live then Expired(a) else a.(session := None)
  }

  predicate VerifyWanted(a: App, hidden: bool) {
    a.live && !a.invalid && !a.verifying && a.auth.Some? && !hidden
  }

  /** `requireMiniSession` returns a session. */
  predicate HasSession(a: App, now: int) {
    a.session.Some? && Current(a.session.value, now)
  }

  /** `verify` up to its `await`; building the request headers may already invalidate. */
  function VerifyBegun(a: App, hidden: bool, now: int): App {
    if !VerifyWanted(a, hidden) then a
    else if HasSession(a, now) then a.(verifying := true)
    else Invalidated(a.(verifying := true))
  }

  /** `verify` after its `await`; `reply` is the identity, or None when the request threw. */
  function VerifyEnded(a: App, reply: Option<User>, now: int): App {
    var b := a.(verifying := false);
    match reply
    case None => if a.live && !a.invalid then b.(phase := Verify) else b
    case Some(user) =>
      if !a.live || a.invalid || a.auth.None? then b
      else if user.id != a.auth.value.user.id then Invalidated(b)
      else
        var next := a.auth.value.(user := user);
        if Storable(next, now) then b.(auth := Some(next), session := Some(next), role := Some(user), phase := Ready)
        else b.(auth := Some(next), phase := Verify)
  }

  predicate LoginSucceeds(a: App, reply: Option<Session>, now: int) {
    a.live && !a.invalid && reply.Some? && Storable(reply.value, now)
  }

  /** The authenticate sequence after its `await`, up to the `verify` it starts. */
  function LoginEnded(a: App, reply: Option<Session>, now: int): App {
    if LoginSucceeds(a, reply, now) then a.(auth := reply, session := reply)
    else if a.live && !a.invalid then Expired(a)
    else a
  }

  /** `visibility`, up to the `verify` it starts. */
  function VisibilityChanged(a: App): App {
    if a.invalid || a.auth.None? then a else a.(phase := Verify)
  }

  function Unmounted(a: App): App {
    a.(live := false, session := None)
  }

  function Mounted(hasInitData: bool): App {
    App(true, false, false, None, None, if hasInitData then Loading else Outside, None)
  }

  // ----- the component -----

  class MiniApp {
    var live: bool
    var invalid: bool
    var verifying: bool
    var auth: Option<Session>
    var session: Option<Session>
    var phase: Phase
    var role: Option<User>

    function View(): App
      reads this
    {
      App(live, invalid, verifying, auth, session, phase, role)
    }

    constructor (hasInitData: bool)
      ensures View() == Mounted(hasInitData)
    {
      live, invalid, verifying := true, false, false;
      auth, session, role := None, None, None;
      phase := if hasInitData then Loading else Outside;
    }

    method Expire()
      modifies this
      ensures View() == Expired(old(View()))
    {
      invalid := true;
      auth := None;
      session := None;
      if live {
        phase := Invalid;
      }
    }

    method InvalidateSession()
      modifies this
      ensures View() == Invalidated(old(View()))
    {
      session := None;
      if live {
        Expire();
      }
    }

    /** None when it throws. */
    method RequireSession(now: int) returns (found: Option<Session>)
      modifies this
      ensures found.Some? <==> HasSession(old(View()), now)
      ensures found.Some? ==> View() == old(View()) && found == session
      ensures found.None? ==> View() == Invalidated(old(View()))
    {
      if session.None? || session.value.expiresAt * 1000 <= now {
        InvalidateSession();
        return None;
      }
      return session;
    }

    /** False when it throws. */
    method SetSession(value: Session, now: int) returns (stored: bool)
      modifies this`session
      ensures stored <==> Storable(value, now)
      ensures session == if stored then Some(value) else old(session)
    {
      if !Storable(value, now) {
        return false;
      }
      session := Some(value);
      return true;
    }

    /** The token to send, or None when no request goes out. */
    method BeginVerify(hidden: bool, now: int) returns (token: Option<string>)
      modifies this
      ensures View() == VerifyBegun(old(View()), hidden, now)
      ensures token.Some? <==> VerifyWanted(old(View()), hidden) && HasSession(old(View()), now)
      ensures token.Some? ==> token.value == session.value.token
    {
      if !live || invalid || verifying || auth.None? || hidden {
        return None;
      }
      verifying := true;
      var found := RequireSession(now);
      return if found.Some? then Some(found.value.token) else None;
    }

    method EndVerify(reply: Option<User>, now: int)
      modifies this
      ensures View() == VerifyEnded(old(View()), reply, now)
    {
      var failed := reply.None?;
      if reply.Some? && live && !invalid && auth.Some? {
        if reply.value.id != auth.value.user.id {
          InvalidateSession();
        } else {
          auth := Some(auth.value.(user := reply.value));
          var stored := SetSession(auth.value, now);
          if stored {
            role := reply;
            phase := Ready;
          } else {
            failed := true;
          }
        }
      }
      if failed && live && !invalid {
        phase := Verify;
      }
      verifying := false;
    }

    method EndLogin(reply: Option<Session>, now: int)
      modifies this
      ensures View() == LoginEnded(old(View()), reply, now)
    {
      if !live || invalid {
        return;
      }
      var stored := false;
      if reply.Some? {
        stored := SetSession(reply.value, now);
      }
      if stored {
        auth := reply;
      } else {
        Expire();
      }
    }

    method ChangeVisibility()
      modifies this
      ensures View() == VisibilityChanged(old(View()))
    {
      if !invalid && auth.Some? {
        phase := Verify;
      }
    }

    method Unmount()
      modifies this
      ensures View() == Unmounted(old(View()))
    {
      live := false;
      session := None;
    }
  }

  // ----- runs -----

  /** A request between its `await`s: sent, its status known, or settled. */
  datatype Stage<T> = Fetching | Reading(status: nat) | Settled(reply: Option<T>)

  datatype Login = NoLogin | Pending(stage: Stage<Session>)

  /**
   The app, its requests in flight (identity checks under their numbers), and
   the session it first authenticated with.
   */
  datatype World = World(app: App, login: Login, checks: map<nat, Stage<User>>, sent: nat, first: Option<Session>)

  datatype Event =
    | LoginResponds(status: nat)
    | LoginReads(session: Option<Session>)
    | LoginFails
    | LoginContinues(now: int, hidden: bool, later: int)
    | VerifyStarts(hidden: bool, now: int)
    | CheckResponds(check: nat, status: nat)
    | CheckReads(check: nat, user: Option<User>)
    | CheckFails(check: nat)
    | CheckContinues(check: nat, now: int)
    | VisibilityChanges(hidden: bool, now: int)
    | SessionInvalidated
    | Unmounts

  ghost predicate IsOk(status: nat) {
    200 <= status < 300
  }

  ghost predicate Possible(w: World, e: Event) {
    match e
    case LoginResponds(_) => w.login.Pending? && w.login.stage.Fetching?
    case LoginReads(_) => w.login.Pending? && w.login.stage.Reading?
    case LoginFails => w.login.Pending? && !w.login.stage.Settled?
    case LoginContinues(_, _, _) => w.login.Pending? && w.login.stage.Settled?
    case CheckResponds(check, _) => check in w.checks && w.checks[check].Fetching?
    case CheckReads(check, _) => check in w.checks && w.checks[check].Reading?
    case CheckFails(check) => check in w.checks && !w.checks[check].Settled?
    case CheckContinues(check, _) => check in w.checks && w.checks[check].Settled?
    case VisibilityChanges(_, _) => w.app.live
    case Unmounts => w.app.live
    case _ => true
  }

  /** `verify` is called; without a session its request rejects at once. */
  ghost function Verifies(w: World, hidden: bool, now: int): World {
    var next := w.(app := VerifyBegun(w.app, hidden, now));
    if !VerifyWanted(w.app, hidden) then next
    else next.(sent := w.sent + 1, checks := w.checks[w.sent := if HasSession(w.app, now) then Fetching else Settled(None)])
  }

  ghost function Next(w: World, e: Event): World
    requires Possible(w, e)
  {
    match e
    case LoginResponds(status) => w.(login := Pending(Reading(status)))
    case LoginReads(session) =>
      var status := w.login.stage.status;
      w.(login := Pending(Settled(if IsOk(status) then session else None)),
         app := if status == 401 then Invalidated(w.app) else w.app)
    case LoginFails => w.(login := Pending(Settled(None)))
    case LoginContinues(now, hidden, later) =>
      var reply := w.login.stage.reply;
      var next := w.(login := NoLogin, app := LoginEnded(w.app, reply, now));
      if !LoginSucceeds(w.app, reply, now) then next
      else Verifies(next.(first := reply), hidden, later)
    case VerifyStarts(hidden, now) => Verifies(w, hidden, now)
    case CheckResponds(check, status) =>
      w.(checks := w.checks[check := Reading(status)], app := if status == 403 then Invalidated(w.app) else w.app)
    case CheckReads(check, user) =>
      var status := w.checks[check].status;
      var reply := if IsOk(status) && user.Some? && ValidUser(user.value) then user else None;
      w.(checks := w.checks[check := Settled(reply)], app := if status == 401 then Invalidated(w.app) else w.app)
    case CheckFails(check) => w.(checks := w.checks[check := Settled(None)])
    case CheckContinues(check, now) =>
      w.(app := VerifyEnded(w.app, w.checks[check].reply, now), checks := w.checks - {check})
    case VisibilityChanges(hidden, now) =>
      var next := w.(app := VisibilityChanged(w.app));
      if w.app.invalid || w.app.auth.None? then next else Verifies(next, hidden, now)
    case SessionInvalidated => w.(app := Invalidated(w.app))
    case Unmounts => w.(app := Unmounted(w.app))
  }

  ghost function Start(hasInitData: bool): World {
    World(Mounted(hasInitData), if hasInitData then Pending(Fetching) else NoLogin, map[], 0, None)
  }

  ghost predicate ValidRun(w: World, events: seq<Event>)
    decreases |events|
  {
    events == [] || (Possible(w, events[0]) && ValidRun(Next(w, events[0]), events[1..]))
  }

  ghost function After(w: World, events: seq<Event>): World
    requires ValidRun(w, events)
    decreases |events|
  {
    if events == [] then w else After(Next(w, events[0]), events[1..])
  }

  // ----- the invariant -----

  /** The session is the one first authenticated, up to what its user may do. */
  ghost predicate SameLogin(s: Option<Session>, first: Option<Session>) {
    s.Some? ==> first.Some? && s.value.token == first.value.token && s.value.expiresAt == first.value.expiresAt
                && s.value.user.id == first.value.user.id
  }

  /** At most one identity check is in flight, and `verifying` says whether. */
  ghost predicate OneCheck(w: World) {
    && (forall i :: i in w.checks ==> i < w.sent && w.app.verifying)
    && (forall i, j :: i in w.checks && j in w.checks ==> i == j)
    && (w.app.verifying ==> exists i :: i in w.checks)
  }

  /** What the variables say together, apart from the checks in flight. */
  ghost predicate Consistent(a: App, first: Option<Session>) {
    && (a.live ==> (a.invalid <==> a.phase == Invalid))
    && (a.live && !a.invalid ==> (a.auth.Some? <==> a.session.Some?) && (a.auth.Some? <==> first.Some?))
    && (a.live && a.invalid ==> a.auth.None? && a.session.None?)
    && (!a.live ==> a.session.None?)
    && (a.live && a.phase.Ready? ==> a.session.Some? && a.role.Some?)
    && (a.role.Some? ==> first.Some?)
    && SameLogin(a.auth, first)
    && SameLogin(a.session, first)
    && (a.session.Some? && a.role.Some? ==> a.role.value == a.session.value.user)
  }

  ghost predicate Inv(w: World) {
    && OneCheck(w)
    && Consistent(w.app, w.first)
    && (w.login.Pending? ==> w.first.None?)
  }

  lemma StartKeeps(hasInitData: bool)
    ensures Inv(Start(hasInitData))
  {
  }

  lemma InvalidatedKeeps(a: App, first: Option<Session>)
    requires Consistent(a, first)
    ensures Consistent(Invalidated(a), first)
  {
  }

  lemma VerifyEndedKeeps(a: App, first: Option<Session>, reply: Option<User>, now: int)
    requires Consistent(a, first)
    ensures Consistent(VerifyEnded(a, reply, now), first)
  {
    hide Storable;
  }

  lemma LoginEndedKeeps(a: App, reply: Option<Session>, now: int)
    requires Consistent(a, None)
    ensures Consistent(LoginEnded(a, reply, now), if LoginSucceeds(a, reply, now) then reply else None)
  {
    hide Storable;
  }

  lemma VerifiesKeeps(w: World, hidden: bool, now: int)
    requires Inv(w)
    ensures Inv(Verifies(w, hidden, now))
  {
    hide Current;
    hide Consistent;
    hide Invalidated;
    assert Consistent(w.app.(verifying := true), w.first) by {
      VerifyingIrrelevant(w.app, true, w.first);
    }
    InvalidatedKeeps(w.app.(verifying := true), w.first);
    InvalidatedVerifying(w.app.(verifying := true));
    var next := Verifies(w, hidden, now);
    if VerifyWanted(w.app, hidden) {
      assert forall i :: i !in w.checks;
      assert w.sent in next.checks;
    }
  }

  lemma VerifyingIrrelevant(a: App, verifying: bool, first: Option<Session>)
    requires Consistent(a, first)
    ensures Consistent(a.(verifying := verifying), first)
  {
  }

  lemma InvalidatedVerifying(a: App)
    ensures Invalidated(a).verifying == a.verifying
  {
  }

  lemma NextKeeps(w: World, e: Event)
    requires Inv(w) && Possible(w, e)
    ensures Inv(Next(w, e))
  {
    hide Storable;
    hide ValidUser;
    hide Current;
    hide Consistent;
    hide Invalidated;
    InvalidatedKeeps(w.app, w.first);
    InvalidatedVerifying(w.app);
    match e
    case LoginResponds(_) =>
    case LoginReads(_) =>
    case LoginFails =>
    case LoginContinues(now, hidden, later) => LoginKeeps(w, now, hidden, later);
    case VerifyStarts(hidden, now) => VerifiesKeeps(w, hidden, now);
    case CheckResponds(check, _) => assert check in Next(w, e).checks;
    case CheckReads(check, _) => assert check in Next(w, e).checks;
    case CheckFails(check) => assert check in Next(w, e).checks;
    case CheckContinues(check, now) =>
      VerifyEndedKeeps(w.app, w.first, w.checks[check].reply, now);
      VerifyEndedStops(w.app, w.checks[check].reply, now);
    case VisibilityChanges(hidden, now) => VisibilityKeeps(w, hidden, now);
    case SessionInvalidated =>
    case Unmounts => UnmountKeeps(w.app, w.first);
  }

  lemma LoginKeeps(w: World, now: int, hidden: bool, later: int)
    requires Inv(w) && Possible(w, LoginContinues(now, hidden, later))
    ensures Inv(Next(w, LoginContinues(now, hidden, later)))
  {
    hide Storable;
    hide Consistent;
    var reply := w.login.stage.reply;
    LoginEndedKeeps(w.app, reply, now);
    var next := w.(login := NoLogin, app := LoginEnded(w.app, reply, now));
    if LoginSucceeds(w.app, reply, now) {
      VerifiesKeeps(next.(first := reply), hidden, later);
    }
  }

  lemma VerifyEndedStops(a: App, reply: Option<User>, now: int)
    ensures !VerifyEnded(a, reply, now).verifying
  {
  }

  lemma VisibilityKeeps(w: World, hidden: bool, now: int)
    requires Inv(w) && w.app.live
    ensures Inv(Next(w, VisibilityChanges(hidden, now)))
  {
    hide Verifies;
    var next := w.(app := VisibilityChanged(w.app));
    assert Inv(next);
    VerifiesKeeps(next, hidden, now);
  }

  lemma UnmountKeeps(a: App, first: Option<Session>)
    requires Consistent(a, first)
    ensures Consistent(Unmounted(a), first)
  {
  }

  lemma {:induction false} RunKeeps(w: World, events: seq<Event>)
    requires Inv(w) && ValidRun(w, events)
    ensures Inv(After(w, events))
    decreases |events|
  {
    hide Inv;
    hide Next;
    hide Possible;
    if events != [] {
      NextKeeps(w, events[0]);
      RunKeeps(Next(w, events[0]), events[1..]);
    }
  }

  // ----- what every run keeps -----

  /**
   While mounted, the phase `ready` means a stored session of the user first
   authenticated, with the first token, and a workspace keyed to its identity.
   */
  lemma ReadyIsAuthenticated(hasInitData: bool, events: seq<Event>)
    requires ValidRun(Start(hasInitData), events)
    ensures var w := After(Start(hasInitData), events);
            w.app.live && w.app.phase.Ready? ==>
              && w.app.session.Some? && w.first.Some?
              && w.app.session.value.token == w.first.value.token
              && w.app.session.value.user.id == w.first.value.user.id
              && w.app.role == Some(w.app.session.value.user)
  {
    StartKeeps(hasInitData);
    RunKeeps(Start(hasInitData), events);
  }

  /** At most one identity check is in flight. */
  lemma OneCheckInFlight(hasInitData: bool, events: seq<Event>, i: nat, j: nat)
    requires ValidRun(Start(hasInitData), events)
    requires i in After(Start(hasInitData), events).checks && j in After(Start(hasInitData), events).checks
    ensures i == j
  {
    StartKeeps(hasInitData);
    RunKeeps(Start(hasInitData), events);
  }

  /** Nothing is stored, nothing is shown and nothing more is sent. */
  ghost predicate Ended(w: World) {
    && w.app.session.None?
    && (w.app.invalid || !w.app.live)
    && (w.app.live ==> w.app.phase == Invalid && w.app.auth.None?)
  }

  lemma NextStaysEnded(w: World, e: Event)
    requires Ended(w) && Possible(w, e)
    ensures var next := Next(w, e);
            && Ended(next) && next.sent == w.sent && next.first == w.first
            && (next.app.live ==> w.app.live) && (w.app.live && !e.Unmounts? ==> next.app.live)
  {
    hide Storable;
    hide ValidUser;
    hide Current;
  }

  lemma {:induction false} RunStaysEnded(w: World, events: seq<Event>)
    requires Ended(w) && ValidRun(w, events)
    ensures Ended(After(w, events)) && After(w, events).sent == w.sent && After(w, events).first == w.first
    decreases |events|
  {
    hide Ended;
    hide Next;
    hide Possible;
    if events != [] {
      NextStaysEnded(w, events[0]);
      RunStaysEnded(Next(w, events[0]), events[1..]);
    }
  }

  /**
   Once invalid, or once unmounted, for good: however the run goes on, no session
   is stored again, no identity check is sent, and while mounted the phase
   stays `invalid`.
   */
  lemma InvalidIsForGood(hasInitData: bool, before: seq<Event>, events: seq<Event>)
    requires ValidRun(Start(hasInitData), before)
    requires var w := After(Start(hasInitData), before); ValidRun(w, events) && (w.app.phase == Invalid || !w.app.live)
    ensures var w := After(Start(hasInitData), before); var later := After(w, events);
            && later.app.session.None? && later.sent == w.sent
            && (later.app.live ==> later.app.phase == Invalid)
  {
    StartKeeps(hasInitData);
    RunKeeps(Start(hasInitData), before);
    var w := After(Start(hasInitData), before);
    assert Ended(w);
    RunStaysEnded(w, events);
  }

  /** The phase becomes `ready` only by a check that named the user first authenticated, with a session still valid. */
  lemma ReadyNeedsCheck(w: World, e: Event)
    requires Inv(w) && Possible(w, e)
    requires !w.app.phase.Ready? && Next(w, e).app.phase.Ready?
    ensures e.CheckContinues? && w.checks[e.check].reply.Some? && w.first.Some?
    ensures w.checks[e.check].reply.value.id == w.first.value.user.id
    ensures Next(w, e).app.session.Some? && Storable(Next(w, e).app.session.value, e.now)
    ensures Next(w, e).app.session.value.user == w.checks[e.check].reply.value
  {
    hide Storable;
    hide OneCheck;
    hide ValidUser;
    hide Current;
  }

  lemma {:induction false} NotReadyUntilChecked(w: World, events: seq<Event>)
    requires Inv(w) && ValidRun(w, events) && !w.app.phase.Ready?
    requires forall e :: e in events ==> !e.CheckContinues?
    ensures !After(w, events).app.phase.Ready?
    decreases |events|
  {
    hide Inv;
    hide Next;
    hide Possible;
    if events != [] {
      NextKeeps(w, events[0]);
      if Next(w, events[0]).app.phase.Ready? {
        ReadyNeedsCheck(w, events[0]);
      }
      NotReadyUntilChecked(Next(w, events[0]), events[1..]);
    }
  }

  /** Hiding or showing the page takes the workspace away until an identity check completes. */
  lemma VisibilityNeedsCheck(hasInitData: bool, before: seq<Event>, hidden: bool, now: int, events: seq<Event>)
    requires ValidRun(Start(hasInitData), before) && After(Start(hasInitData), before).app.live
    requires ValidRun(Next(After(Start(hasInitData), before), VisibilityChanges(hidden, now)), events)
    requires forall e :: e in events ==> !e.CheckContinues?
    ensures !After(Next(After(Start(hasInitData), before), VisibilityChanges(hidden, now)), events).app.phase.Ready?
  {
    StartKeeps(hasInitData);
    RunKeeps(Start(hasInitData), before);
    var w := After(Start(hasInitData), before);
    NextKeeps(w, VisibilityChanges(hidden, now));
    NotReadyUntilChecked(Next(w, VisibilityChanges(hidden, now)), events);
  }
}
