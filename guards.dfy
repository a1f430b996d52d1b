/** The route guards. `authGuard` and `publicGuard` wait for the auth service to
    be ready and then decide on the authentication flag they see at that
    moment; the service's flags over time are a trace of snapshots. `IntroGuard`
    reads one storage key. */
module Guards {
  import opened Common
  import opened Entities
  import opened Storage
  import opened Auth
  import opened Intro

  /** A guard's answer: not yet decided, allow, refuse after asking the router
      to navigate (with an optional `returnUrl` query parameter), or redirect
      by returning a URL tree. */
  datatype Decision =
    | Pending
    | Allow
    | Navigate(path: string, returnUrl: Option<string>)
    | RedirectTree(path: string)

  /** The auth service's `isReady` and `isAuthenticated` values at one moment. */
  datatype Snapshot = Snapshot(ready: bool, authenticated: bool)

  /** The authentication flag seen at the first ready snapshot, if any. */
  function FirstReady(trace: seq<Snapshot>): (r: Option<bool>)
    ensures r.None? <==> forall i :: 0 <= i < |trace| ==> !trace[i].ready
    ensures r.Some? ==>
      exists i :: 0 <= i < |trace| && trace[i].ready && r.value == trace[i].authenticated && (forall k :: 0 <= k < i ==> !trace[k].ready)
    decreases |trace|
  {
    if |trace| == 0 then None
    else if trace[0].ready then Some(trace[0].authenticated)
    else
      var r := FirstReady(trace[1..]);
      assert forall i :: 1 <= i < |trace| ==> trace[i] == trace[1..][i - 1];
      if r.Some? then
        var i :| 0 <= i < |trace[1..]| && trace[1..][i].ready && r.value == trace[1..][i].authenticated &&
          forall k :: 0 <= k < i ==> !trace[1..][k].ready;
        assert trace[i + 1].ready && forall k :: 0 <= k < i + 1 ==> !trace[k].ready;
        r
      else
        r
  }

  /** `authGuard`'s decision once the flag is known. */
  function AuthDecision(authenticated: bool, url: string): Decision {
    if authenticated then Allow else Navigate("/login", Some(url))
  }

  /** `publicGuard`'s decision once the flag is known. */
  function PublicDecision(authenticated: bool): Decision {
    if !authenticated then Allow else Navigate("/menu/home", None)
  }

  /** `authGuard` over a trace: pending until the service is ready. */
  function AuthGuard(trace: seq<Snapshot>, url: string): Decision {
    match FirstReady(trace)
    case None => Pending
    case Some(a) => AuthDecision(a, url)
  }

  /** `publicGuard` over a trace. */
  function PublicGuard(trace: seq<Snapshot>): Decision {
    match FirstReady(trace)
    case None => Pending
    case Some(a) => PublicDecision(a)
  }

  /** `authGuard` allows exactly when the flag at readiness is set, and
      otherwise sends the user to `/login` carrying the requested URL. */
  lemma AuthGuardDecides(trace: seq<Snapshot>, url: string)
    ensures AuthGuard(trace, url) == Allow <==> FirstReady(trace) == Some(true)
    ensures FirstReady(trace) == Some(false) ==> AuthGuard(trace, url) == Navigate("/login", Some(url))
    ensures AuthGuard(trace, url) == Pending <==> forall i :: 0 <= i < |trace| ==> !trace[i].ready
  {
  }

  /** `publicGuard` allows exactly when the flag at readiness is clear, and
      otherwise sends the user to `/menu/home`. */
  lemma PublicGuardDecides(trace: seq<Snapshot>)
    ensures PublicGuard(trace) == Allow <==> FirstReady(trace) == Some(false)
    ensures FirstReady(trace) == Some(true) ==> PublicGuard(trace) == Navigate("/menu/home", None)
  {
  }

  /** Once the service is ready, exactly one of the two guards allows; before
      that, both wait. */
  lemma ExactlyOneGuardAllows(trace: seq<Snapshot>, url: string)
    ensures FirstReady(trace).Some? ==> (AuthGuard(trace, url) == Allow) != (PublicGuard(trace) == Allow)
    ensures FirstReady(trace).None? ==> AuthGuard(trace, url) == Pending && PublicGuard(trace) == Pending
  {
  }

  /** Snapshots before readiness are ignored. */
  lemma {:induction false} NotReadyPrefixIgnored(prefix: seq<Snapshot>, rest: seq<Snapshot>)
    requires forall i :: 0 <= i < |prefix| ==> !prefix[i].ready
    ensures FirstReady(prefix + rest) == FirstReady(rest)
    decreases |prefix|
  {
    if |prefix| > 0 {
      assert (prefix + rest)[0] == prefix[0];
      assert FirstReady(prefix + rest) == FirstReady((prefix + rest)[1..]);
      assert (prefix + rest)[1..] == prefix[1..] + rest;
      NotReadyPrefixIgnored(prefix[1..], rest);
    } else {
      assert prefix + rest == rest;
    }
  }

  /** The guards decide once: snapshots after the first ready one change nothing. */
  lemma {:induction false} LaterSnapshotsIgnored(trace: seq<Snapshot>, later: seq<Snapshot>)
    requires FirstReady(trace).Some?
    ensures FirstReady(trace + later) == FirstReady(trace)
    decreases |trace|
  {
    if !trace[0].ready {
      assert (trace + later)[1..] == trace[1..] + later;
      LaterSnapshotsIgnored(trace[1..], later);
    }
  }

  /** The key `IntroGuard` reads. */
  const IntroSeenGlobalKey := "introSeen"

  /** `IntroGuard.canActivate` on the value read: a truthy value allows,
      anything else (null, false) redirects to `/intro`. */
  function IntroDecision(seen: Option<Value>): (d: Decision)
    ensures d == Allow <==> Truthy(seen)
    ensures d != Allow ==> d == RedirectTree("/intro")
  {
    if Truthy(seen) then Allow else RedirectTree("/intro")
  }

  /** `IntroGuard.canActivate`: one read of the global key; storage is not changed. */
  method CanActivate(s: Store) returns (d: Decision)
    requires s.Valid()
    modifies s
    ensures s.Valid() && s.data == old(s.data)
    ensures d == IntroDecision(Find(old(s.data), IntroSeenGlobalKey))
  {
    var seen := s.Get(IntroSeenGlobalKey);
    d := if Truthy(seen) then Allow else RedirectTree("/intro");
  }

  /** As written, finishing the intro while logged in writes only the user's
      own key, so the guard keeps redirecting to `/intro` when the global key
      was not already set. */
  lemma IntroGuardIgnoresUserKey(data: map<string, Value>, u: User)
    requires !Truthy(Find(data, IntroSeenGlobalKey))
    ensures IntroDecision(Find(data[IntroSeenKey(Some(u)) := Bool(true)], IntroSeenGlobalKey)) == RedirectTree("/intro")
  {
    IntroSeenKeyChoice(Some(u), None);
  }

  /** The same mismatch on the page and the guard themselves: a logged-in user
      who finishes the intro is sent back to it. */
  method FinishIntroThenGuard(p: IntroPage) returns (d: Decision)
    requires p.Valid() && p.auth.currentUser.Some?
    requires !Truthy(Find(p.storage.data, IntroSeenGlobalKey))
    modifies p, p.storage
    ensures d == RedirectTree("/intro")
  {
    IntroGuardIgnoresUserKey(p.storage.data, p.auth.currentUser.value);
    p.GoHome();
    d := CanActivate(p.storage);
  }

  /** The guard as evidently intended: it reads the key `goHome` writes, the
      one of the logged-in user (the global key when there is none). */
  function IntroDecisionFor(data: map<string, Value>, user: Option<User>): (d: Decision)
    ensures user.None? ==> d == IntroDecision(Find(data, IntroSeenGlobalKey))
  {
    IntroDecision(Find(data, IntroSeenKey(user)))
  }

  /** With the corrected guard, finishing the intro admits the same user, and
      another user still has to see the intro. */
  lemma CorrectedGuardAdmitsAfterIntro(data: map<string, Value>, user: Option<User>, other: User)
    ensures IntroDecisionFor(data[IntroSeenKey(user) := Bool(true)], user) == Allow
    ensures user.Some? && UserIdText(other) != UserIdText(user.value) && !Truthy(Find(data, IntroSeenKey(Some(other)))) ==>
      IntroDecisionFor(data[IntroSeenKey(user) := Bool(true)], Some(other)) == RedirectTree("/intro")
  {
    IntroSeenKeyChoice(user, Some(other));
    IntroSeenKeyChoice(Some(other), user);
  }

  /** The corrected `canActivate`, reading the auth service's current user. */
  method CanActivateCorrected(s: Store, auth: AuthService) returns (d: Decision)
    requires s.Valid()
    modifies s
    ensures s.Valid() && s.data == old(s.data)
    ensures d == IntroDecisionFor(old(s.data), auth.currentUser)
  {
    var seen := s.Get(IntroSeenKey(auth.currentUser));
    d := IntroDecision(seen);
  }

  /** The corrected guard lets a logged-in user through after the intro. */
  method FinishIntroThenCorrectedGuard(p: IntroPage) returns (d: Decision)
    requires p.Valid()
    modifies p, p.storage
    ensures d == Allow
  {
    p.GoHome();
    d := CanActivateCorrected(p.storage, p.auth);
  }
}
