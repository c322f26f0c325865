/**
 * Handlers of the XendAPI class and the evaluation of a guarded call.
 * A handler is the body it runs plus the guards folded around it
 * (innermost first) and its "api" tag. Bodies with real branching are
 * modelled (XendAPI.py lines 207-213, 291-320, 365-380, 833-838,
 * 955-965, 1005-1015); bodies that only forward to collaborators are
 * recorded as opaque calls.
 */
module Handlers {
  import opened Wrappers
  import opened Envelope
  import opened Guards

  /** The body a handler runs once every guard has let the call through. */
  datatype Body =
    | Identity                               // the get_by_uuid / get_uuid lambdas of __init__
    | LoginWithPassword                      // session_login_with_password
    | Logout                                 // session_logout
    | GetThisHost                            // session_get_this_host
    | GetThisUser                            // session_get_this_user
    | HostEnable                             // host_enable
    | HostDisable                            // host_disable
    | HostReboot                             // host_reboot
    | HostShutdown                           // host_shutdown
    | VmGetByLabel                           // vm_get_by_label
    | CreateDevice(kind: DeviceKind)         // vbd_create, vif_create
    | Constant(params: nat, answer: Response) // a body that always returns the same envelope
    | Opaque(name: string, params: nat)      // a body whose logic belongs to the collaborators

  /** A table entry: the body, the guards wrapped around it in the order they
      were applied (the last one is outermost), and the "api" attribute. */
  datatype Handler = Handler(body: Body, guards: seq<Guard>, api: Option<string>)

  /** Python exceptions that reach the transport untranslated: a call with the
      wrong number of arguments, a struct argument that is not a dictionary,
      a dictionary without the key the body reads. */
  datatype Fault = WrongArguments | NotAStruct | MissingField

  /** What a call produces: a response envelope, a call into collaborator
      logic with exactly these arguments, or an exception. */
  datatype Outcome = Returned(response: Response) | Delegated(name: string, args: seq<Datum>) | Raised(fault: Fault)

  /** The number of parameters a body declares after self. */
  function Params(b: Body): nat
  {
    match b
    case Identity => 2
    case LoginWithPassword => 2
    case Logout => 1
    case GetThisHost => 1
    case GetThisUser => 1
    case HostEnable => 2
    case HostDisable => 2
    case HostReboot => 2
    case HostShutdown => 2
    case VmGetByLabel => 2
    case CreateDevice(_) => 2
    case Constant(n, _) => n
    case Opaque(_, n) => n
  }

  /** The bodies that change collaborator state. */
  predicate Mutates(b: Body)
  {
    b == LoginWithPassword || b == Logout || b == HostEnable || b == HostDisable || b.CreateDevice?
  }

  /** host_enable (allow = true) and host_disable (allow = false): set the
      domain registry's allow_new_domains flag and answer a void success. */
  function SetAllowNewDomains(w: World, allow: bool): (out: (Response, World))
    ensures Carried(out.0) == Some(Str(""))
    ensures out.1.allowNewDomains == allow
    ensures out.1.(allowNewDomains := w.allowNewDomains) == w
  {
    (ApiSuccessVoid(), w.(allowNewDomains := allow))
  }

  /** host_reboot and host_shutdown: refuse with HOST_RUNNING while new domains
      are not allowed, and answer UNSUPPORTED otherwise. */
  function PowerCycle(w: World): (r: Response)
    ensures !w.allowNewDomains <==> Reported(r) == Some(HostRunning)
    ensures w.allowNewDomains <==> Reported(r) == Some(Unsupported)
  {
    if !w.allowNewDomains then ApiError(HostRunning) else ApiError(Unsupported)
  }

  /** session_login_with_password: the auth manager either accepts the
      credentials and binds a fresh token to their user, or raises XendError,
      which the handler turns into AUTHENTICATION_FAILED. The token comes
      from the auth manager's generator and is a parameter here. */
  function Login(w: World, username: Datum, password: Datum, token: Datum): (out: (Response, World))
    ensures (username, password) in w.accounts ==>
      Carried(out.0) == Some(token) &&
      out.1 == w.(sessions := w.sessions[token := w.accounts[(username, password)]])
    ensures (username, password) !in w.accounts ==>
      Reported(out.0) == Some(AuthenticationFailed) && out.1 == w
  {
    if (username, password) in w.accounts then
      (ApiSuccess(token), w.(sessions := w.sessions[token := w.accounts[(username, password)]]))
    else
      (ApiError(AuthenticationFailed), w)
  }

  /** session_logout: the auth manager forgets the token; a void success. */
  function LogoutSession(w: World, session: Datum): (out: (Response, World))
    ensures Carried(out.0) == Some(Str(""))
    ensures session !in out.1.sessions
    ensures out.1.(sessions := w.sessions) == w
    ensures forall s :: s in w.sessions && s != session ==> s in out.1.sessions && out.1.sessions[s] == w.sessions[s]
    ensures forall s :: s in out.1.sessions ==> s in w.sessions
  {
    (ApiSuccessVoid(), w.(sessions := w.sessions - {session}))
  }

  /** session_get_this_user: the user bound to the session when it is a
      non-empty string, and SESSION_INVALID (an "Error", not a guard
      "Failure") when the auth manager has no user for it. */
  function ThisUser(w: World, session: Datum): (r: Response)
    ensures Carried(r).Some? <==> session in w.sessions && w.sessions[session] != ""
    ensures Carried(r).Some? ==> Carried(r) == Some(Str(w.sessions[session]))
    ensures Carried(r).None? ==> Reported(r) == Some(SessionInvalid)
  {
    if session in w.sessions && w.sessions[session] != "" then ApiSuccess(Str(w.sessions[session]))
    else ApiError(SessionInvalid)
  }

  /** vm_get_by_label: the uuid of the domain carrying the label, or VM_INVALID. */
  function VmByLabel(w: World, name: Datum): (r: Response)
    ensures name in w.labels ==> Carried(r) == Some(Str(w.labels[name]))
    ensures name !in w.labels <==> Reported(r) == Some(VmInvalid)
  {
    if name in w.labels then ApiSuccess(Str(w.labels[name])) else ApiError(VmInvalid)
  }

  /** Whether is_valid_dev accepts ref as a device of this kind. */
  predicate Knows(w: World, kind: DeviceKind, ref: string)
  {
    if kind == Vbd then ref in w.vbds else ref in w.vifs
  }

  /** The reference guard of a device kind: valid_vbd or valid_vif. */
  function DeviceGuard(kind: DeviceKind): Guard
  {
    if kind == Vbd then ValidVbd else ValidVif
  }

  /** The domain registry once a domain has created device ref: the registry
      now knows it, and knows everything it knew before. */
  function WithDevice(w: World, kind: DeviceKind, ref: string): (w': World)
    ensures Knows(w', kind, ref)
    ensures forall k, x :: Knows(w, k, x) ==> Knows(w', k, x)
    ensures forall k, x :: Knows(w', k, x) ==> Knows(w, k, x) || (k, x) == (kind, ref)
    ensures w'.(vbds := w.vbds, vifs := w.vifs) == w
  {
    if kind == Vbd then w.(vbds := w.vbds + {ref}) else w.(vifs := w.vifs + {ref})
  }

  /** vbd_create and vif_create: read struct['VM']; if the domain registry
      knows that VM, ask it to create the device (XendError becomes TODO),
      otherwise answer DOMAIN_INVALID. Indexing something that is not a
      dictionary, or a dictionary without "VM", raises. A device created
      is one the registry knows from then on; any other outcome changes
      nothing. */
  function CreateIn(w: World, kind: DeviceKind, spec: Datum): (out: (Outcome, World))
    ensures out.0.Raised? <==> !spec.Struct? || "VM" !in spec.fields
    ensures !out.0.Delegated?
    ensures out.0.Returned? && Carried(out.0.response).Some? <==>
      spec.Struct? && "VM" in spec.fields && spec.fields["VM"] in w.vms && (kind, spec) in w.created
    ensures out.0.Returned? && Carried(out.0.response).Some? ==>
      Carried(out.0.response) == Some(Str(w.created[(kind, spec)])) &&
      out.1 == WithDevice(w, kind, w.created[(kind, spec)])
    ensures spec.Struct? && "VM" in spec.fields && spec.fields["VM"] in w.vms && (kind, spec) !in w.created ==>
      out.0 == Returned(ApiError(Todo))
    ensures out.0.Returned? && Reported(out.0.response) == Some(DomainInvalid) <==>
      spec.Struct? && "VM" in spec.fields && spec.fields["VM"] !in w.vms
    ensures !(out.0.Returned? && Carried(out.0.response).Some?) ==> out.1 == w
  {
    match spec
    case Struct(fields) =>
      if "VM" !in fields then (Raised(MissingField), w)
      else if fields["VM"] in w.vms then
        if (kind, spec) in w.created then
          var ref := w.created[(kind, spec)];
          (Returned(ApiSuccess(Str(ref))), WithDevice(w, kind, ref))
        else (Returned(ApiError(Todo)), w)
      else (Returned(ApiError(DomainInvalid)), w)
    case _ => (Raised(NotAStruct), w)
  }

  /** A device that vbd_create or vif_create reports as created passes the
      matching reference guard from then on, and the session that asked
      for it stays live. */
  lemma CreatedDeviceAdmitted(w: World, kind: DeviceKind, spec: Datum, session: Datum)
    requires session in w.sessions
    requires CreateIn(w, kind, spec).0.Returned? && Carried(CreateIn(w, kind, spec).0.response).Some?
    ensures var ref := w.created[(kind, spec)];
      Admits(SessionRequired, CreateIn(w, kind, spec).1, [session, Str(ref)]) &&
      Admits(DeviceGuard(kind), CreateIn(w, kind, spec).1, [session, Str(ref)])
  {
  }

  /** Running a body on the arguments the guards let through (after self).
      A call with the wrong number of arguments raises, and only the
      bodies that mutate collaborators return a different world. */
  function Run(b: Body, w: World, args: seq<Datum>, token: Datum): (out: (Outcome, World))
    ensures |args| != Params(b) ==> out == (Raised(WrongArguments), w)
    ensures out.1 != w ==> Mutates(b)
    ensures out.0.Delegated? ==> b.Opaque? && out.0 == Delegated(b.name, args)
  {
    if |args| != Params(b) then (Raised(WrongArguments), w)
    else
      match b
      case Identity => (Returned(ApiSuccess(args[1])), w)
      case LoginWithPassword =>
        var (r, w') := Login(w, args[0], args[1], token); (Returned(r), w')
      case Logout =>
        var (r, w') := LogoutSession(w, args[0]); (Returned(r), w')
      case GetThisHost => (Returned(ApiSuccess(Str(w.nodeUuid))), w)
      case GetThisUser => (Returned(ThisUser(w, args[0])), w)
      case HostEnable =>
        var (r, w') := SetAllowNewDomains(w, true); (Returned(r), w')
      case HostDisable =>
        var (r, w') := SetAllowNewDomains(w, false); (Returned(r), w')
      case HostReboot => (Returned(PowerCycle(w)), w)
      case HostShutdown => (Returned(PowerCycle(w)), w)
      case VmGetByLabel => (Returned(VmByLabel(w, args[1])), w)
      case CreateDevice(kind) => CreateIn(w, kind, args[1])
      case Constant(_, answer) => (Returned(answer), w)
      case Opaque(name, _) => (Delegated(name, args), w)
  }

  /** The outcome of a guard that did not let the call through. */
  function Refusal(v: Verdict): Outcome
    requires v != Proceed
  {
    if v.ShortCircuit? then Returned(v.response) else Raised(WrongArguments)
  }

  /** A call to a guarded handler: the outermost (last applied) guard decides
      first; a guard that lets the call through hands the SAME arguments to
      what it wraps, and one that refuses answers without running anything
      inside it. Hence the world changes, and the body's logic is reached,
      only through a run of the body on the caller's arguments. */
  function Invoke(h: Handler, w: World, args: seq<Datum>, token: Datum): (out: (Outcome, World))
    decreases |h.guards|
    ensures out.1 != w || out.0.Delegated? ==> out == Run(h.body, w, args, token)
    ensures out.1 != w ==> Mutates(h.body)
  {
    if h.guards == [] then Run(h.body, w, args, token)
    else
      var n := |h.guards| - 1;
      var v := Check(h.guards[n], w, args);
      if v == Proceed then Invoke(h.(guards := h.guards[..n]), w, args, token)
      else (Refusal(v), w)
  }

  /** When every guard of the chain admits the call, the body runs on the
      caller's arguments, as if no guard were there. */
  lemma {:induction false} InvokeAllAdmit(h: Handler, w: World, args: seq<Datum>, token: Datum)
    requires forall i :: 0 <= i < |h.guards| ==> Admits(h.guards[i], w, args)
    ensures Invoke(h, w, args, token) == Run(h.body, w, args, token)
    decreases |h.guards|
  {
    if h.guards != [] {
      var n := |h.guards| - 1;
      assert Admits(h.guards[n], w, args);
      InvokeAllAdmit(h.(guards := h.guards[..n]), w, args, token);
    }
  }

  /** When guard j refuses and every guard applied after it (outside it)
      admits, the call answers with guard j's refusal and changes nothing:
      the outermost refusing guard decides. */
  lemma {:induction false} InvokeOutermostRefusal(h: Handler, w: World, args: seq<Datum>, token: Datum, j: nat)
    requires j < |h.guards| && !Admits(h.guards[j], w, args)
    requires forall i :: j < i < |h.guards| ==> Admits(h.guards[i], w, args)
    ensures Invoke(h, w, args, token) == (Refusal(Check(h.guards[j], w, args)), w)
    decreases |h.guards|
  {
    var n := |h.guards| - 1;
    if j < n {
      assert Admits(h.guards[n], w, args);
      InvokeOutermostRefusal(h.(guards := h.guards[..n]), w, args, token, j);
    }
  }

  /** The chain (valid_X, session_required) that __init__ builds for Host,
      Host_CPU, VM, VBD and VIF: with a dead session the reference is never
      looked at; with a live session a bad reference yields the reference
      guard's "Failure"; with both good the body runs. */
  lemma GuardOrder(h: Handler, w: World, args: seq<Datum>, token: Datum)
    requires |h.guards| == 2 && h.guards[1] == SessionRequired && h.guards[0] != SessionRequired
    requires |args| >= 2
    ensures args[0] !in w.sessions ==>
      Invoke(h, w, args, token) == (Returned(GuardFailure(SessionInvalid)), w)
    ensures args[0] in w.sessions && !Admits(h.guards[0], w, args) ==>
      Invoke(h, w, args, token) == (Returned(GuardFailure(Rejection(h.guards[0]))), w)
    ensures args[0] in w.sessions && Admits(h.guards[0], w, args) ==>
      Invoke(h, w, args, token) == Run(h.body, w, args, token)
  {
    if args[0] !in w.sessions {
      InvokeOutermostRefusal(h, w, args, token, 1);
    } else if !Admits(h.guards[0], w, args) {
      InvokeOutermostRefusal(h, w, args, token, 0);
    } else {
      InvokeAllAdmit(h, w, args, token);
    }
  }

  /** host_enable and host_disable decide what host_reboot and host_shutdown
      answer next, and the latter two change nothing. */
  lemma HostFlagGovernsPowerCycle(w: World, args: seq<Datum>, token: Datum)
    requires |args| == 2
    ensures Run(HostReboot, Run(HostEnable, w, args, token).1, args, token).0 == Returned(ApiError(Unsupported))
    ensures Run(HostShutdown, Run(HostEnable, w, args, token).1, args, token).0 == Returned(ApiError(Unsupported))
    ensures Run(HostReboot, Run(HostDisable, w, args, token).1, args, token).0 == Returned(ApiError(HostRunning))
    ensures Run(HostShutdown, Run(HostDisable, w, args, token).1, args, token).0 == Returned(ApiError(HostRunning))
    ensures Run(HostReboot, w, args, token).1 == w && Run(HostShutdown, w, args, token).1 == w
    ensures Run(HostEnable, Run(HostEnable, w, args, token).1, args, token) == Run(HostEnable, w, args, token)
  {
  }
}
