/**
 * Calls through the table XendAPI() leaves behind: what a client gets back
 * from the handlers of XendAPI.py lines 291-320, 365-380, 406-408, 833-838,
 * 955-965 and 1005-1015 once __init__ has wrapped them, for any handlers
 * the class body defines under those names.
 *
 * Each ...Call lemma joins a fact of module Surface (the guards and tag a
 * name ends up with) to a fact about calling a handler so wrapped.
 */
module Calls {
  import opened Wrappers
  import opened Envelope
  import opened Guards
  import opened Handlers
  import opened Registration
  import opened Surface

  // The ...Guarded lemmas below take the handler in the form the Surface
  // lemmas give it, t[k].guards + chain with t[k].guards == [], and so
  // write its guards as [] + chain: stated as a plain list, the solver has
  // to rediscover the concatenation in every caller.

  /** A handler with exactly one guard, session_required: a dead session is
      refused with the guard's "Failure", a live one runs the body. */
  lemma SessionOnly(h: Handler, w: World, args: seq<Datum>, token: Datum)
    requires h.guards == [SessionRequired] && |args| >= 1
    ensures args[0] !in w.sessions ==> Invoke(h, w, args, token) == (Returned(GuardFailure(SessionInvalid)), w)
    ensures args[0] in w.sessions ==> Invoke(h, w, args, token) == Run(h.body, w, args, token)
  {
    if args[0] !in w.sessions {
      InvokeOutermostRefusal(h, w, args, token, 0);
    } else {
      InvokeAllAdmit(h, w, args, token);
    }
  }

  /** A handler under (valid_X, session_required): the session first, then
      the reference, then the body. */
  lemma ReferenceGuarded(h: Handler, g: Guard, w: World, args: seq<Datum>, token: Datum)
    requires h.guards == [g, SessionRequired] && g != SessionRequired && |args| == 2
    ensures args[0] !in w.sessions ==> Invoke(h, w, args, token) == (Returned(GuardFailure(SessionInvalid)), w)
    ensures args[0] in w.sessions && !Admits(g, w, args) ==> Invoke(h, w, args, token) == (Returned(GuardFailure(Rejection(g))), w)
    ensures args[0] in w.sessions && Admits(g, w, args) ==> Invoke(h, w, args, token) == Run(h.body, w, args, token)
  {
    GuardOrder(h, w, args, token);
  }

  /** host_reboot (and likewise host_shutdown) as a client calls it: the
      session is checked first, then the host reference, and only then does
      the allow_new_domains flag decide between HOST_RUNNING and
      UNSUPPORTED; the world never changes. */
  lemma HostRebootCall(t: map<string, Handler>, w: World, args: seq<Datum>, token: Datum)
    requires "host_reboot" in t && t["host_reboot"] == Handler(HostReboot, [], None)
    requires |args| == 2
    ensures "host_reboot" in Built(t)
    ensures args[0] !in w.sessions ==>
      Invoke(Built(t)["host_reboot"], w, args, token) == (Returned(GuardFailure(SessionInvalid)), w)
    ensures args[0] in w.sessions && !(args[1].Str? && args[1].s in w.hosts) ==>
      Invoke(Built(t)["host_reboot"], w, args, token) == (Returned(GuardFailure(HostInvalid)), w)
    ensures args[0] in w.sessions && args[1].Str? && args[1].s in w.hosts ==>
      Invoke(Built(t)["host_reboot"], w, args, token) == (Returned(PowerCycle(w)), w)
  {
    HostRebootWrapped(t);
    HostRebootGuarded(Built(t)["host_reboot"], w, args, token);
  }

  lemma HostRebootGuarded(h: Handler, w: World, args: seq<Datum>, token: Datum)
    requires h == Handler(HostReboot, [] + [ValidHost, SessionRequired], Some("Host.reboot"))
    requires |args| == 2
    ensures args[0] !in w.sessions ==> Invoke(h, w, args, token) == (Returned(GuardFailure(SessionInvalid)), w)
    ensures args[0] in w.sessions && !(args[1].Str? && args[1].s in w.hosts) ==>
      Invoke(h, w, args, token) == (Returned(GuardFailure(HostInvalid)), w)
    ensures args[0] in w.sessions && args[1].Str? && args[1].s in w.hosts ==>
      Invoke(h, w, args, token) == (Returned(PowerCycle(w)), w)
  {
    assert h.guards == [ValidHost, SessionRequired];
    ReferenceGuarded(h, ValidHost, w, args, token);
  }

  /** host_cpu_get_uuid as a client calls it: whatever the class body
      defines under that name, the identity handler installed by __init__
      answers, echoing the reference once both guards admit the call. */
  lemma HostCpuGetUuidCall(t: map<string, Handler>, w: World, args: seq<Datum>, token: Datum)
    requires |args| == 2
    ensures "host_cpu_get_uuid" in Built(t)
    ensures args[0] !in w.sessions ==>
      Invoke(Built(t)["host_cpu_get_uuid"], w, args, token) == (Returned(GuardFailure(SessionInvalid)), w)
    ensures args[0] in w.sessions && !(args[1].Str? && args[1].s in w.cpus) ==>
      Invoke(Built(t)["host_cpu_get_uuid"], w, args, token) == (Returned(GuardFailure(HostCpuInvalid)), w)
    ensures args[0] in w.sessions && args[1].Str? && args[1].s in w.cpus ==>
      Invoke(Built(t)["host_cpu_get_uuid"], w, args, token) == (Returned(ApiSuccess(args[1])), w)
  {
    HostCpuGetUuidWrapped(t);
    HostCpuUuidGuarded(Built(t)["host_cpu_get_uuid"], w, args, token);
  }

  lemma HostCpuUuidGuarded(h: Handler, w: World, args: seq<Datum>, token: Datum)
    requires h == Handler(Identity, [ValidHostCpu, SessionRequired], Some("Host_CPU.get_uuid"))
    requires |args| == 2
    ensures args[0] !in w.sessions ==> Invoke(h, w, args, token) == (Returned(GuardFailure(SessionInvalid)), w)
    ensures args[0] in w.sessions && !(args[1].Str? && args[1].s in w.cpus) ==>
      Invoke(h, w, args, token) == (Returned(GuardFailure(HostCpuInvalid)), w)
    ensures args[0] in w.sessions && args[1].Str? && args[1].s in w.cpus ==>
      Invoke(h, w, args, token) == (Returned(ApiSuccess(args[1])), w)
  {
    ReferenceGuarded(h, ValidHostCpu, w, args, token);
  }

  /** vm_get_by_label as a client calls it: session_required alone guards
      it, so the label reaches the domain registry unchecked. */
  lemma VmGetByLabelCall(t: map<string, Handler>, w: World, args: seq<Datum>, token: Datum)
    requires "vm_get_by_label" in t && t["vm_get_by_label"] == Handler(VmGetByLabel, [], None)
    requires |args| == 2
    ensures "vm_get_by_label" in Built(t)
    ensures args[0] !in w.sessions ==>
      Invoke(Built(t)["vm_get_by_label"], w, args, token) == (Returned(GuardFailure(SessionInvalid)), w)
    ensures args[0] in w.sessions ==>
      Invoke(Built(t)["vm_get_by_label"], w, args, token) == (Returned(VmByLabel(w, args[1])), w)
  {
    VmGetByLabelWrapped(t);
    VmByLabelGuarded(Built(t)["vm_get_by_label"], w, args, token);
  }

  lemma VmByLabelGuarded(h: Handler, w: World, args: seq<Datum>, token: Datum)
    requires h == Handler(VmGetByLabel, [] + [SessionRequired], Some("VM.get_by_label"))
    requires |args| == 2
    ensures args[0] !in w.sessions ==> Invoke(h, w, args, token) == (Returned(GuardFailure(SessionInvalid)), w)
    ensures args[0] in w.sessions ==> Invoke(h, w, args, token) == (Returned(VmByLabel(w, args[1])), w)
  {
    SessionGuarded(h, VmGetByLabel, "VM.get_by_label", w, args, token);
    if args[0] in w.sessions {
      VmByLabelRuns(w, args, token);
    }
  }

  lemma VmByLabelRuns(w: World, args: seq<Datum>, token: Datum)
    requires |args| == 2
    ensures Run(VmGetByLabel, w, args, token) == (Returned(VmByLabel(w, args[1])), w)
  {
  }

  /** A body the class defined unguarded, once wrapped in session_required. */
  lemma SessionGuarded(h: Handler, b: Body, api: string, w: World, args: seq<Datum>, token: Datum)
    requires h == Handler(b, [] + [SessionRequired], Some(api))
    requires |args| >= 1
    ensures args[0] !in w.sessions ==> Invoke(h, w, args, token) == (Returned(GuardFailure(SessionInvalid)), w)
    ensures args[0] in w.sessions ==> Invoke(h, w, args, token) == Run(b, w, args, token)
  {
    assert h.guards == [SessionRequired];
    SessionOnly(h, w, args, token);
  }

  /** vbd_create and vif_create as a client calls them: they come from
      Base_funcs, so valid_vbd and valid_vif never look at the struct, and
      with a live session the body decides alone. */
  lemma VbdCreateCall(t: map<string, Handler>, w: World, args: seq<Datum>, token: Datum)
    requires "vbd_create" in t && t["vbd_create"] == Handler(CreateDevice(Vbd), [], None)
    requires |args| == 2
    ensures "vbd_create" in Built(t)
    ensures args[0] !in w.sessions ==>
      Invoke(Built(t)["vbd_create"], w, args, token) == (Returned(GuardFailure(SessionInvalid)), w)
    ensures args[0] in w.sessions ==>
      Invoke(Built(t)["vbd_create"], w, args, token) == CreateIn(w, Vbd, args[1])
  {
    VbdCreateWrapped(t);
    CreateGuarded(Built(t)["vbd_create"], Vbd, "VBD.create", w, args, token);
  }

  lemma CreateGuarded(h: Handler, kind: DeviceKind, api: string, w: World, args: seq<Datum>, token: Datum)
    requires h == Handler(CreateDevice(kind), [] + [SessionRequired], Some(api))
    requires |args| == 2
    ensures args[0] !in w.sessions ==> Invoke(h, w, args, token) == (Returned(GuardFailure(SessionInvalid)), w)
    ensures args[0] in w.sessions ==> Invoke(h, w, args, token) == CreateIn(w, kind, args[1])
  {
    SessionGuarded(h, CreateDevice(kind), api, w, args, token);
    if args[0] in w.sessions {
      CreateRuns(kind, w, args, token);
    }
  }

  /** A creation body given the session and the struct hands the struct to CreateIn. */
  lemma CreateRuns(kind: DeviceKind, w: World, args: seq<Datum>, token: Datum)
    requires |args| == 2
    ensures Run(CreateDevice(kind), w, args, token) == CreateIn(w, kind, args[1])
  {
  }

  lemma VifCreateCall(t: map<string, Handler>, w: World, args: seq<Datum>, token: Datum)
    requires "vif_create" in t && t["vif_create"] == Handler(CreateDevice(Vif), [], None)
    requires |args| == 2
    ensures "vif_create" in Built(t)
    ensures args[0] !in w.sessions ==>
      Invoke(Built(t)["vif_create"], w, args, token) == (Returned(GuardFailure(SessionInvalid)), w)
    ensures args[0] in w.sessions ==>
      Invoke(Built(t)["vif_create"], w, args, token) == CreateIn(w, Vif, args[1])
  {
    VifCreateWrapped(t);
    CreateGuarded(Built(t)["vif_create"], Vif, "VIF.create", w, args, token);
  }

  /** session_login_with_password as a client calls it: left out of every
      declaration list, it is never wrapped, so it answers without any
      session. */
  lemma LoginCall(t: map<string, Handler>, w: World, username: Datum, password: Datum, token: Datum)
    requires "session_login_with_password" in t
    requires t["session_login_with_password"] == Handler(LoginWithPassword, [], Some("Session.login_with_password"))
    ensures "session_login_with_password" in Built(t)
    ensures Invoke(Built(t)["session_login_with_password"], w, [username, password], token) ==
      (Returned(Login(w, username, password, token).0), Login(w, username, password, token).1)
  {
    LoginUnwrapped(t);
    LoginUnguarded(Built(t)["session_login_with_password"], w, username, password, token);
  }

  lemma LoginUnguarded(h: Handler, w: World, username: Datum, password: Datum, token: Datum)
    requires h == Handler(LoginWithPassword, [], Some("Session.login_with_password"))
    ensures Invoke(h, w, [username, password], token) ==
      (Returned(Login(w, username, password, token).0), Login(w, username, password, token).1)
  {
  }

  /** session_logout as a client calls it: a live session is ended with a
      void success, and the same session is then refused by
      session_required with a "Failure". */
  lemma LogoutThenRefused(t: map<string, Handler>, w: World, session: Datum, token: Datum)
    requires "session_logout" in t && t["session_logout"] == Handler(Logout, [], None)
    requires session in w.sessions
    ensures "session_logout" in Built(t)
    ensures var (o, w') := Invoke(Built(t)["session_logout"], w, [session], token);
      && o == Returned(ApiSuccessVoid())
      && session !in w'.sessions
      && Invoke(Built(t)["session_logout"], w', [session], token) == (Returned(GuardFailure(SessionInvalid)), w')
  {
    SessionLogoutWrapped(t);
    LogoutGuarded(Built(t)["session_logout"], w, session, token);
  }

  lemma LogoutGuarded(h: Handler, w: World, session: Datum, token: Datum)
    requires h == Handler(Logout, [] + [SessionRequired], Some("Session.logout"))
    requires session in w.sessions
    ensures var (o, w') := Invoke(h, w, [session], token);
      && o == Returned(ApiSuccessVoid())
      && session !in w'.sessions
      && Invoke(h, w', [session], token) == (Returned(GuardFailure(SessionInvalid)), w')
  {
    SessionGuarded(h, Logout, "Session.logout", w, [session], token);
    var w' := Invoke(h, w, [session], token).1;
    SessionGuarded(h, Logout, "Session.logout", w', [session], token);
  }

  /** A client's whole session as the server's handlers answer it:
      session_login_with_password with accepted credentials answers the new
      token; under that token session_get_this_host answers the node's uuid
      and session_get_this_user the user bound to it; session_logout ends it
      with a void success; and session_get_this_user under the same token is
      then refused by session_required with a "Failure", before ThisUser
      could answer its own SESSION_INVALID "Error". */
  lemma SessionRoundTrip(t: map<string, Handler>, w: World, username: Datum, password: Datum, token: Datum)
    requires "session_login_with_password" in t
    requires t["session_login_with_password"] == Handler(LoginWithPassword, [], Some("Session.login_with_password"))
    requires "session_get_this_host" in t && t["session_get_this_host"] == Handler(GetThisHost, [], None)
    requires "session_get_this_user" in t && t["session_get_this_user"] == Handler(GetThisUser, [], None)
    requires "session_logout" in t && t["session_logout"] == Handler(Logout, [], None)
    requires (username, password) in w.accounts
    ensures "session_login_with_password" in Built(t) && "session_get_this_host" in Built(t)
    ensures "session_get_this_user" in Built(t) && "session_logout" in Built(t)
    ensures var w1 := Login(w, username, password, token).1;
      var w2 := LogoutSession(w1, token).1;
      && Invoke(Built(t)["session_login_with_password"], w, [username, password], token) == (Returned(ApiSuccess(token)), w1)
      && Invoke(Built(t)["session_get_this_host"], w1, [token], token) == (Returned(ApiSuccess(Str(w.nodeUuid))), w1)
      && Invoke(Built(t)["session_get_this_user"], w1, [token], token) == (Returned(ThisUser(w1, token)), w1)
      && Invoke(Built(t)["session_logout"], w1, [token], token) == (Returned(ApiSuccessVoid()), w2)
      && Invoke(Built(t)["session_get_this_user"], w2, [token], token) == (Returned(GuardFailure(SessionInvalid)), w2)
    ensures w.accounts[(username, password)] != "" ==>
      Invoke(Built(t)["session_get_this_user"], Login(w, username, password, token).1, [token], token).0 ==
        Returned(ApiSuccess(Str(w.accounts[(username, password)])))
  {
    LoginUnwrapped(t);
    SessionLogoutWrapped(t);
    SessionGettersWrapped(t);
    SessionRoundTripGuarded(Built(t)["session_login_with_password"], Built(t)["session_get_this_host"],
      Built(t)["session_get_this_user"], Built(t)["session_logout"], w, username, password, token);
  }

  /** The same session, over the four handlers in the form the Surface
      lemmas give them. */
  lemma SessionRoundTripGuarded(login: Handler, host: Handler, user: Handler, logout: Handler,
                                w: World, username: Datum, password: Datum, token: Datum)
    requires login == Handler(LoginWithPassword, [], Some("Session.login_with_password"))
    requires host == Handler(GetThisHost, [] + [SessionRequired], Some("Session.get_this_host"))
    requires user == Handler(GetThisUser, [] + [SessionRequired], Some("Session.get_this_user"))
    requires logout == Handler(Logout, [] + [SessionRequired], Some("Session.logout"))
    requires (username, password) in w.accounts
    ensures var w1 := Login(w, username, password, token).1;
      var w2 := LogoutSession(w1, token).1;
      && Invoke(login, w, [username, password], token) == (Returned(ApiSuccess(token)), w1)
      && Invoke(host, w1, [token], token) == (Returned(ApiSuccess(Str(w.nodeUuid))), w1)
      && Invoke(user, w1, [token], token) == (Returned(ThisUser(w1, token)), w1)
      && Invoke(logout, w1, [token], token) == (Returned(ApiSuccessVoid()), w2)
      && Invoke(user, w2, [token], token) == (Returned(GuardFailure(SessionInvalid)), w2)
    ensures w.accounts[(username, password)] != "" ==>
      Invoke(user, Login(w, username, password, token).1, [token], token).0 ==
        Returned(ApiSuccess(Str(w.accounts[(username, password)])))
  {
    var w1 := Login(w, username, password, token).1;
    var w2 := LogoutSession(w1, token).1;
    LoginUnguarded(login, w, username, password, token);
    ThisHostGuarded(host, w, w1, token);
    ThisUserGuarded(user, w1, w2, token);
    LogoutGuarded(logout, w1, token, token);
  }

  lemma ThisHostGuarded(h: Handler, w: World, w1: World, token: Datum)
    requires h == Handler(GetThisHost, [] + [SessionRequired], Some("Session.get_this_host"))
    requires token in w1.sessions && w1.nodeUuid == w.nodeUuid
    ensures Invoke(h, w1, [token], token) == (Returned(ApiSuccess(Str(w.nodeUuid))), w1)
  {
    SessionGuarded(h, GetThisHost, "Session.get_this_host", w1, [token], token);
    GetterRuns(w1, token);
  }

  /** The two Session getters, given their one argument. */
  lemma GetterRuns(w: World, token: Datum)
    ensures Run(GetThisHost, w, [token], token) == (Returned(ApiSuccess(Str(w.nodeUuid))), w)
    ensures Run(GetThisUser, w, [token], token) == (Returned(ThisUser(w, token)), w)
  {
  }

  lemma ThisUserGuarded(h: Handler, w1: World, w2: World, token: Datum)
    requires h == Handler(GetThisUser, [] + [SessionRequired], Some("Session.get_this_user"))
    requires token in w1.sessions && w2 == LogoutSession(w1, token).1
    ensures Invoke(h, w1, [token], token) == (Returned(ThisUser(w1, token)), w1)
    ensures Invoke(h, w2, [token], token) == (Returned(GuardFailure(SessionInvalid)), w2)
  {
    SessionGuarded(h, GetThisUser, "Session.get_this_user", w1, [token], token);
    GetterRuns(w1, token);
    ThisUserRefused(h, w2, token);
  }

  lemma ThisUserRefused(h: Handler, w: World, token: Datum)
    requires h == Handler(GetThisUser, [] + [SessionRequired], Some("Session.get_this_user"))
    requires token !in w.sessions
    ensures Invoke(h, w, [token], token) == (Returned(GuardFailure(SessionInvalid)), w)
  {
    SessionGuarded(h, GetThisUser, "Session.get_this_user", w, [token], token);
  }
}
