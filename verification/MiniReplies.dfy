/**
 What the Mini App makes of every reply, in any run: which end the session, which
 ask again, and when a check goes out.
 */
module MiniReplies {

  import opened Options
  import opened JsText
  import opened MiniSession

  ghost predicate Reached(hasInitData: bool, before: seq<Event>, w: World) {
    ValidRun(Start(hasInitData), before) && After(Start(hasInitData), before) == w
  }

  lemma ReachedKeeps(hasInitData: bool, before: seq<Event>, w: World)
    requires Reached(hasInitData, before, w)
    ensures Inv(w)
  {
    StartKeeps(hasInitData);
    RunKeeps(Start(hasInitData), before);
  }

  /** Mounted and not yet expired. */
  ghost predicate Running(w: World) {
    w.app.live && w.app.phase != Invalid
  }

  /** However the run goes on from here, no session is stored, no check is sent, and while mounted the phase is `invalid`. */
  ghost predicate OverForGood(w: World) {
    forall events :: ValidRun(w, events) ==>
      var later := After(w, events);
      && later.app.session.None? && later.sent == w.sent && (later.app.live ==> later.app.phase == Invalid)
  }

  lemma EndedIsOver(w: World)
    requires Ended(w)
    ensures OverForGood(w)
  {
    forall events | ValidRun(w, events)
      ensures var later := After(w, events);
              && later.app.session.None? && later.sent == w.sent && (later.app.live ==> later.app.phase == Invalid)
    {
      RunStaysEnded(w, events);
    }
  }

  // ----- identity checks -----

  /**
   A check that names another user than the one first authenticated ends the
   session of a running app for good.
   */
  lemma ForeignIdentityEnds(hasInitData: bool, before: seq<Event>, w: World, check: nat, now: int)
    requires Reached(hasInitData, before, w) && Running(w) && w.first.Some?
    requires Possible(w, CheckContinues(check, now)) && w.checks[check].reply.Some?
    requires w.checks[check].reply.value.id != w.first.value.user.id
    ensures var next := Next(w, CheckContinues(check, now));
            next.app.live && next.app.phase == Invalid && next.app.session.None? && next.sent == w.sent && OverForGood(next)
  {
    hide OverForGood;
    hide Storable;
    hide OneCheck;
    ReachedKeeps(hasInitData, before, w);
    EndedIsOver(Next(w, CheckContinues(check, now)));
  }

  /** A failed check asks a running app to check again and leaves its session; one that is over stays as it is. */
  lemma FailedCheckAsksAgain(hasInitData: bool, before: seq<Event>, w: World, check: nat, now: int)
    requires Reached(hasInitData, before, w) && Possible(w, CheckContinues(check, now)) && w.checks[check].reply.None?
    ensures var next := Next(w, CheckContinues(check, now)).app;
            && next.session == w.app.session && next.auth == w.app.auth && next.role == w.app.role && !next.verifying
            && (if Running(w) then next.phase == Verify && next.live else next.phase == w.app.phase)
  {
    ReachedKeeps(hasInitData, before, w);
    if !w.app.live {
      UnmountedPhase(w.app, None, now);
    }
  }

  lemma UnmountedPhase(a: App, reply: Option<User>, now: int)
    requires !a.live
    ensures VerifyEnded(a, reply, now) == a.(verifying := false)
  {
  }

  /** A check that names the first user makes a running app ready, as long as the session with that identity can be stored. */
  lemma SameIdentityIsReady(hasInitData: bool, before: seq<Event>, w: World, check: nat, now: int)
    requires Reached(hasInitData, before, w) && Running(w) && w.first.Some?
    requires Possible(w, CheckContinues(check, now)) && w.checks[check].reply.Some?
    requires w.checks[check].reply.value.id == w.first.value.user.id
    ensures var next := Next(w, CheckContinues(check, now)).app; var user := w.checks[check].reply.value;
            var renewed := Session(w.first.value.token, w.first.value.expiresAt, user);
            if Storable(renewed, now) then next.phase == Ready && next.session == Some(renewed) && next.role == Some(user)
            else next.phase == Verify && next.session == w.app.session && next.role == w.app.role
  {
    hide Storable;
    hide OneCheck;
    ReachedKeeps(hasInitData, before, w);
  }

  /** A reply counts as an identity exactly when its status is a success and it names an administrator or staff member. */
  lemma ReplyCounts(w: World, check: nat, user: Option<User>)
    requires Possible(w, CheckReads(check, user))
    ensures var next := Next(w, CheckReads(check, user)); var status := w.checks[check].status;
            check in next.checks && next.checks[check].Settled? &&
            (next.checks[check].reply == if 200 <= status <= 299 && user.Some? && Sound(user.value) then user else None)
  {
  }

  /** The identity of an administrator or staff member. */
  ghost predicate Sound(user: User) {
    && 0 < user.id <= 9007199254740991
    && (user.isAdmin == 0 || user.isAdmin == 1) && (user.isStaff == 0 || user.isStaff == 1)
    && user.isAdmin + user.isStaff > 0
  }

  // ----- login -----

  /** A login that failed, or whose session cannot be stored, ends a running app for good. */
  lemma FailedLoginEnds(hasInitData: bool, before: seq<Event>, w: World, now: int, hidden: bool, later: int)
    requires Reached(hasInitData, before, w) && Running(w) && Possible(w, LoginContinues(now, hidden, later))
    requires w.login.stage.reply.None? || !Storable(w.login.stage.reply.value, now)
    ensures var next := Next(w, LoginContinues(now, hidden, later));
            next.app.live && next.app.phase == Invalid && next.app.session.None? && OverForGood(next)
  {
    hide OverForGood;
    hide Storable;
    hide OneCheck;
    ReachedKeeps(hasInitData, before, w);
    EndedIsOver(Next(w, LoginContinues(now, hidden, later)));
  }

  /** A login that can be stored is; on a visible page a check with it goes out at once. */
  lemma GoodLoginStores(hasInitData: bool, before: seq<Event>, w: World, now: int, hidden: bool, later: int)
    requires Reached(hasInitData, before, w) && Running(w) && Possible(w, LoginContinues(now, hidden, later))
    requires w.login.stage.reply.Some? && Storable(w.login.stage.reply.value, now)
    requires w.login.stage.reply.value.expiresAt * 1000 > later
    ensures var next := Next(w, LoginContinues(now, hidden, later)); var login := w.login.stage.reply;
            && next.first == login && next.app.session == login && next.app.auth == login && next.app.phase == w.app.phase
            && next.sent == (if hidden || w.app.verifying then w.sent else w.sent + 1)
  {
    hide Storable;
    hide OneCheck;
    ReachedKeeps(hasInitData, before, w);
  }

  // ----- when a check goes out -----

  ghost predicate SessionCurrent(w: World, now: int) {
    w.app.session.Some? && w.app.session.value.expiresAt * 1000 > now
  }

  /**
   `verify` sends a check exactly when the app runs, has logged in, waits for no
   other check, the page is visible and the session has not expired; an expired
   session ends the app.
   */
  lemma VerifySends(hasInitData: bool, before: seq<Event>, w: World, hidden: bool, now: int)
    requires Reached(hasInitData, before, w)
    ensures var next := Next(w, VerifyStarts(hidden, now));
            var wanted := Running(w) && w.first.Some? && w.checks == map[] && !hidden;
            && (wanted && SessionCurrent(w, now) ==>
                  && next.sent == w.sent + 1 && next.checks == map[w.sent := Fetching] && next.app == w.app.(verifying := true))
            && (wanted && !SessionCurrent(w, now) ==> next.app.live && next.app.phase == Invalid && next.app.session.None?)
            && (!wanted ==> next == w)
  {
    ReachedKeeps(hasInitData, before, w);
    if w.checks != map[] {
      var i :| i in w.checks;
      assert w.app.verifying;
    }
  }

  /** Hiding or showing the page asks a running, logged-in app to verify; only a visible page sends. */
  lemma VisibilityAsks(hasInitData: bool, before: seq<Event>, w: World, hidden: bool, now: int)
    requires Reached(hasInitData, before, w) && Running(w) && w.first.Some?
    ensures var next := Next(w, VisibilityChanges(hidden, now));
            && (hidden ==> next == w.(app := w.app.(phase := Verify)))
            && (!hidden && w.checks == map[] && SessionCurrent(w, now) ==> next.app.phase == Verify && next.sent == w.sent + 1)
            && (!hidden && w.checks == map[] && !SessionCurrent(w, now) ==> next.app.phase == Invalid && next.app.session.None?)
  {
    ReachedKeeps(hasInitData, before, w);
    if w.app.verifying {
      var i :| i in w.checks;
    }
  }

  // ----- what ends a session -----

  /** A request refused for its session ends a running app for good, whoever receives it. */
  lemma RefusalEnds(hasInitData: bool, before: seq<Event>, w: World, e: Event)
    requires Reached(hasInitData, before, w) && Running(w) && Possible(w, e)
    requires || e.SessionInvalidated?
             || (e.CheckResponds? && e.status == 403)
             || (e.CheckReads? && w.checks[e.check].status == 401)
             || (e.LoginReads? && w.login.stage.status == 401)
    ensures var next := Next(w, e);
            next.app.live && next.app.phase == Invalid && next.app.session.None? && next.sent == w.sent && OverForGood(next)
  {
    hide OverForGood;
    hide ValidUser;
    hide OneCheck;
    ReachedKeeps(hasInitData, before, w);
    EndedIsOver(Next(w, e));
  }

  /** So does unmounting. */
  lemma UnmountEnds(hasInitData: bool, before: seq<Event>, w: World)
    requires Reached(hasInitData, before, w) && w.app.live
    ensures !Next(w, Unmounts).app.live && Next(w, Unmounts).app.session.None? && OverForGood(Next(w, Unmounts))
  {
    hide OverForGood;
    EndedIsOver(Next(w, Unmounts));
  }

  // ----- what is stored -----

  ghost predicate WellStored(s: Session) {
    s.token != "" && (forall c :: c in s.token ==> !IsSpace(c)) && Sound(s.user)
  }

  ghost predicate StoredSound(w: World) {
    w.app.session.Some? ==> WellStored(w.app.session.value)
  }

  lemma NextStored(w: World, e: Event)
    requires StoredSound(w) && Possible(w, e)
    ensures StoredSound(Next(w, e))
  {
    hide WellStored;
    hide Storable;
    hide ValidUser;
    hide Current;
    forall s, now | Storable(s, now) ensures WellStored(s) {
      StorableExactly(s, now);
    }
  }

  /** A session can be stored exactly when it is sound and its safe expiry (in seconds) lies ahead. */
  lemma StorableExactly(s: Session, now: int)
    ensures Storable(s, now) <==>
              WellStored(s) && -9007199254740991 <= s.expiresAt <= 9007199254740991 && s.expiresAt * 1000 > now
  {
  }

  lemma {:induction false} RunStored(w: World, events: seq<Event>)
    requires StoredSound(w) && ValidRun(w, events)
    ensures StoredSound(After(w, events))
    decreases |events|
  {
    hide StoredSound;
    hide Next;
    hide Possible;
    if events != [] {
      NextStored(w, events[0]);
      RunStored(Next(w, events[0]), events[1..]);
    }
  }

  /** In every run a stored session has a token without white space and the identity of an administrator or staff member. */
  lemma StoredIsSound(hasInitData: bool, events: seq<Event>)
    requires ValidRun(Start(hasInitData), events)
    ensures var w := After(Start(hasInitData), events); w.app.session.Some? ==> WellStored(w.app.session.value)
  {
    RunStored(Start(hasInitData), events);
  }

  // ----- before the login -----

  /**
   No check has been sent; a mounted app is loading for as long as its login is
   in flight, or stands outside Telegram, or has been invalidated.
   */
  ghost predicate Unlogged(w: World, hasInitData: bool) {
    && w.sent == 0 && w.app.session.None? && (w.login.Pending? ==> hasInitData)
    && (w.app.live && hasInitData ==> if w.app.phase == Loading then w.login.Pending? else w.app.phase == Invalid)
    && (w.app.live && !hasInitData ==> w.app.phase == Outside || w.app.phase == Invalid)
  }

  lemma NextUnlogged(w: World, hasInitData: bool, e: Event)
    requires Inv(w) && Possible(w, e) && (w.first.None? ==> Unlogged(w, hasInitData))
    ensures Next(w, e).first.None? ==> Unlogged(Next(w, e), hasInitData)
  {
    hide Storable;
    hide ValidUser;
    hide Current;
  }

  lemma {:induction false} RunUnlogged(w: World, hasInitData: bool, events: seq<Event>)
    requires Inv(w) && ValidRun(w, events) && (w.first.None? ==> Unlogged(w, hasInitData))
    ensures After(w, events).first.None? ==> Unlogged(After(w, events), hasInitData)
    decreases |events|
  {
    hide Inv;
    hide Next;
    hide Possible;
    hide Unlogged;
    if events != [] {
      NextKeeps(w, events[0]);
      NextUnlogged(w, hasInitData, events[0]);
      RunUnlogged(Next(w, events[0]), hasInitData, events[1..]);
    }
  }

  /** In every run, until a login is stored the app is loading, outside Telegram or invalid, and asks nothing. */
  lemma NothingBeforeLogin(hasInitData: bool, events: seq<Event>)
    requires ValidRun(Start(hasInitData), events)
    ensures var w := After(Start(hasInitData), events); w.first.None? ==> Unlogged(w, hasInitData)
  {
    StartKeeps(hasInitData);
    RunUnlogged(Start(hasInitData), hasInitData, events);
  }
}
