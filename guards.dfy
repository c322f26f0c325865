/**
 * The request guards: session_required (from XendAuthSessions) and the
 * reference guards valid_host, valid_host_cpu, valid_vm, valid_vbd and
 * valid_vif (XendAPI.py lines 50-157), checked against the collaborators'
 * state.
 */
module Guards {
  import opened Wrappers
  import opened Envelope

  /** The decorators that __init__ folds around a handler. */
  datatype Guard = SessionRequired | ValidHost | ValidHostCpu | ValidVm | ValidVbd | ValidVif

  /** The two device kinds of the domain registry, 'vbd' and 'vif'. */
  datatype DeviceKind = Vbd | Vif

  /** The state of the collaborators the core consults, as values:
      the session store of the auth manager, the node (XendNode) and the
      domain registry (XendDomain). */
  datatype World = World(
    sessions: map<Datum, string>,          // live session tokens and the user bound to each ("" if none)
    accounts: map<(Datum, Datum), string>, // credentials login_with_password accepts, and their user
    nodeUuid: string,                      // XendNode.instance().uuid
    hosts: set<string>,                    // references is_valid_host accepts
    cpus: set<string>,                     // references is_valid_cpu accepts
    vms: set<Datum>,                       // references is_valid_vm accepts
    vbds: set<string>,                     // references is_valid_dev('vbd', _) accepts
    vifs: set<string>,                     // references is_valid_dev('vif', _) accepts
    labels: map<Datum, string>,            // domain_lookup_nr(label), by the uuid of the domain found
    allowNewDomains: bool,                 // XendDomain's allow_new_domains flag
    created: map<(DeviceKind, Datum), string> // uuid create_vbd / create_vif return per struct; absent = XendError
  )

  /** The outcome of one guard: let the call through, answer in its place,
      or fail because the call lacks the positional argument it inspects. */
  datatype Verdict = Proceed | ShortCircuit(response: Response) | MissingArgument

  /** How many leading arguments (after self) a guard names: the session,
      and for a reference guard also the reference. */
  function Inspects(g: Guard): nat
  {
    if g == SessionRequired then 1 else 2
  }

  /** The code a guard answers with when it refuses a call. */
  function Rejection(g: Guard): ErrorCode
  {
    match g
    case SessionRequired => SessionInvalid
    case ValidHost => HostInvalid
    case ValidHostCpu => HostCpuInvalid
    case ValidVm => VmInvalid
    case ValidVbd => VbdInvalid
    case ValidVif => VifInvalid
  }

  /** Whether g lets a call with these arguments through: the session is
      live, or the reference is a string that the matching registry knows. */
  predicate Admits(g: Guard, w: World, args: seq<Datum>)
  {
    |args| >= Inspects(g) &&
    match g
    case SessionRequired => args[0] in w.sessions
    case ValidHost => args[1].Str? && args[1].s in w.hosts
    case ValidHostCpu => args[1].Str? && args[1].s in w.cpus
    case ValidVm => args[1].Str? && args[1] in w.vms
    case ValidVbd => args[1].Str? && args[1].s in w.vbds
    case ValidVif => args[1].Str? && args[1].s in w.vifs
  }

  /** One guard applied to a call. A guard passes the call on exactly when
      it admits it; otherwise it answers with a "Failure" envelope carrying
      its own code, or fails for a missing argument. */
  function Check(g: Guard, w: World, args: seq<Datum>): (v: Verdict)
    ensures v == Proceed <==> Admits(g, w, args)
    ensures v == MissingArgument <==> |args| < Inspects(g)
    ensures v.ShortCircuit? ==> Refused(v.response) == Some(Rejection(g))
  {
    if |args| < Inspects(g) then MissingArgument
    else if Admits(g, w, args) then Proceed
    else ShortCircuit(GuardFailure(Rejection(g)))
  }
}
