# XendAPI handler engine, modelled in Dafny

This project models the engine at the heart of Xend's Xen-API server
(`tools/python/xen/xend/XendAPI.py`). The class `XendAPI` defines one
Python method per remote call (`host_reboot`, `vm_get_by_label`, ...).
Its constructor then builds the table the server dispatches on:

- it installs identity handlers for `<cls>_get_by_uuid` and
  `<cls>_get_uuid` for every class;
- for every class it walks the declaration lists `<Cls>_attr_ro`,
  `<Cls>_attr_rw`, `<Cls>_methods`, `<Cls>_funcs` and the shared `Base_*`
  lists, and derives a handler name from each entry by lower-casing;
- it folds the class's validators (`valid_host`, ..., `session_required`)
  around each handler it finds, tags it with an `api` name that keeps the
  original case, and writes it back.

The model has these modules:

- `Envelope` (`envelope.dfy`): the response dictionaries
  (`xen_api_success`, `xen_api_success_void`, `xen_api_error`,
  `xen_api_todo`) and the `Failure` answer of the reference guards.
- `Guards` (`guards.dfy`): `session_required` and the five reference
  guards, checked against a value `World` that stands for the
  collaborators (the auth manager's session store, `XendNode`,
  `XendDomain`).
- `Handlers` (`handlers.dfy`): the handler bodies with real branching;
  `Invoke`, which evaluates a call through a guarded handler from the
  outermost guard inwards; and the guard-order lemmas.
- `Registration` (`registration.dfy`): the naming convention; the
  registrations a class declaration produces; the wrapping of one handler;
  the identity handlers; and the whole constructor as the function
  `Build`, with lemmas on what it leaves under each name.
- `Declarations` (`declarations.dfy`): the concrete `classes` dictionary,
  the declaration lists and the handlers the class body defines.
- `Api` (`api.dfy`): the class `ApiClass`. Its `Init` method runs the
  constructor's loops, updating the class's handler table in place, and is
  proved equal to `Build`.
- `Surface` (`surface.dfy`): what the constructor leaves, over the real
  declarations, under the names of the core handlers.
- `Calls` (`calls.dfy`): what a client gets back from those handlers once
  they are wrapped.

Two places where the code does not match what its comments or an
informal reading suggest. The model follows the code in each:

- The comment at line 285 says the Session class is "left unwrapped", but
  `Session` is in `classes`. So `session_logout` and the other Session
  handlers are wrapped in `session_required`
  (`Surface.SessionLogoutWrapped`).
- The identity handlers `<cls>_get_by_uuid` and `<cls>_get_uuid` are
  installed before the wrapping loop, so they do not stay bare:
  - `get_uuid` comes from `Base_attr_ro`, so it gets the class's whole
    chain;
  - `get_by_uuid` comes from `Base_funcs`, so it gets `session_required`
    only.

  The hand-written `host_cpu_get_uuid` is overridden
  (`Surface.HostCpuGetUuidWrapped`, `Calls.HostCpuGetUuidCall`).

A guard refusal has status `Failure`, while `session_get_this_user`
answers a session without a user with an `Error` that carries the same
code, SESSION_INVALID. The model keeps the two apart. After
`session_logout`, a `session_get_this_user` under the same token never
reaches that `Error`: `session_required` refuses it first with a
`Failure` (`Calls.SessionRoundTrip`).

## Model

| member | source | states |
|---|---|---|
| Envelope.ApiSuccess | tools/python/xen/xend/XendAPI.py:29-30 | a success carries exactly the given value, and reads as neither an error nor a refusal |
| Envelope.ApiSuccessVoid | tools/python/xen/xend/XendAPI.py:31-33 | a void success carries the empty string, and nothing else |
| Envelope.ApiError | tools/python/xen/xend/XendAPI.py:34-35 | an error reports exactly its code, carries no value, and is not a guard refusal |
| Envelope.ApiTodo | tools/python/xen/xend/XendAPI.py:36-38 | the TODO sentinel reports the TODO code as an Error |
| Envelope.GuardFailure | tools/python/xen/xend/XendAPI.py:62-63 | a guard refusal has status Failure and its code, and is never read as an Error |
| Envelope.EnvelopeShapes | tools/python/xen/xend/XendAPI.py:29-38 | void success is success(""); todo() equals error(TODO); a refusal differs from an error with the same code; a success differs from both |
| Guards.Check | tools/python/xen/xend/XendAPI.py:50-157 | a guard lets the call through if and only if the session is live, or for a reference guard the reference is a string its registry knows; otherwise it answers Failure with its own code, or fails when the argument is missing |
| Handlers.SetAllowNewDomains | tools/python/xen/xend/XendAPI.py:367-372 | host_enable/host_disable set allow_new_domains to true/false, change nothing else, and answer a void success |
| Handlers.PowerCycle | tools/python/xen/xend/XendAPI.py:373-380 | host_reboot/host_shutdown answer HOST_RUNNING exactly when new domains are not allowed, and UNSUPPORTED exactly when they are |
| Handlers.Login | tools/python/xen/xend/XendAPI.py:291-297 | accepted credentials bind the new token to their user and return it; rejected ones answer AUTHENTICATION_FAILED and change nothing |
| Handlers.LogoutSession | tools/python/xen/xend/XendAPI.py:301-303 | logout removes that session, adds none, keeps every other session and its user, and answers a void success |
| Handlers.ThisUser | tools/python/xen/xend/XendAPI.py:316-320 | returns the session's user if and only if it has a non-empty one; otherwise the Error SESSION_INVALID |
| Handlers.VmByLabel | tools/python/xen/xend/XendAPI.py:833-838 | the uuid of the domain found under the label, and VM_INVALID if and only if none is found |
| Handlers.CreateIn | tools/python/xen/xend/XendAPI.py:955-965 | raises if and only if the argument is not a struct with a "VM" key; succeeds with the created device if and only if the VM is known and creation succeeds, and then the registry knows the new device; answers TODO when the VM is known but creation fails (XendError); answers DOMAIN_INVALID if and only if the VM is unknown; nothing but a successful creation changes the world |
| Handlers.CreatedDeviceAdmitted | tools/python/xen/xend/XendAPI.py:957-961 | a device vbd_create or vif_create reports as created passes valid_vbd or valid_vif from then on, and the session that asked stays live |
| Handlers.Run | tools/python/xen/xend/XendAPI.py:291-1015 | a call with the wrong number of arguments raises; only login, logout, enable, disable and the device creations change the world; only opaque bodies delegate, and with the caller's own arguments |
| Handlers.Invoke | tools/python/xen/xend/XendAPI.py:57-63 | a guarded call changes the world, or reaches the body's logic, only as the bare body run on the same arguments |
| Handlers.InvokeAllAdmit | tools/python/xen/xend/XendAPI.py:59-60 | when every guard admits the call, the guarded handler behaves exactly as the bare body |
| Handlers.InvokeOutermostRefusal | tools/python/xen/xend/XendAPI.py:235-236 | the outermost refusing guard answers, and nothing inside it runs |
| Handlers.GuardOrder | tools/python/xen/xend/XendAPI.py:196-200 | under (valid_X, session_required), a dead session gives SESSION_INVALID before the reference is looked at; then a bad reference gives X's Failure; otherwise the body runs |
| Handlers.HostFlagGovernsPowerCycle | tools/python/xen/xend/XendAPI.py:367-380 | after enable, reboot/shutdown answer UNSUPPORTED; after disable, HOST_RUNNING; reboot/shutdown change nothing; enable is idempotent |
| Registration.Lower | tools/python/xen/xend/XendAPI.py:232 | str.lower keeps the length and lower-cases each character |
| Registration.KeyIsFoldedApiName | tools/python/xen/xend/XendAPI.py:232-237 | the handler name a pass looks up is its api tag lower-cased with the dot turned into an underscore, for all four passes |
| Registration.Registrations | tools/python/xen/xend/XendAPI.py:231-240 | one registration per declared name, in list order |
| Registration.ClassCoverage | tools/python/xen/xend/XendAPI.py:225-272 | a class registers a getter for every read-only or read-write attribute and Base_attr_ro entry; a setter for every read-write and Base_attr_rw entry; a method under the class chain; a class function under session_required alone; nothing else |
| Registration.Wrap | tools/python/xen/xend/XendAPI.py:233-240 | a found handler keeps its body, gets the chain on top of its guards, and gets the tag; a missing one is skipped; no other entry changes and no name is added |
| Registration.ApplyAt | tools/python/xen/xend/XendAPI.py:230-275 | the pass adds and removes no name; each entry gets the chains of all registrations naming it, stacked in order, and the tag of the last; an entry no registration names is unchanged |
| Registration.InstallIdentitiesAt | tools/python/xen/xend/XendAPI.py:207-213 | afterwards the table holds both identity names of every class, mapped to the identity handler whatever was there; every other entry is unchanged |
| Registration.IdentityKeysAreRegistered | tools/python/xen/xend/XendAPI.py:207-213 | `<cls>_get_by_uuid` is the Base_funcs name 'get_by_uuid' and `<cls>_get_uuid` the Base_attr_ro name 'uuid', so the wrapping loop wraps both |
| Registration.BuildAt | tools/python/xen/xend/XendAPI.py:188-275 | after the whole constructor, a name is present if and only if it was defined or is an identity name; it holds its original or identity body, under the chains of every registration naming it, tagged by the last |
| Registration.BuildWrapped | tools/python/xen/xend/XendAPI.py:230-272 | a name one class registers, and no other touches, keeps its body and gets exactly that class's chain and tag |
| Registration.BuildUntouched | tools/python/xen/xend/XendAPI.py:274-275 | a name that no class registers or installs, for any list of classes including none, is present after the pass exactly when it was before and stays exactly as defined |
| Registration.BuildIdentity | tools/python/xen/xend/XendAPI.py:207-244 | an identity name ends as the identity body under the chain and tag its class gives it |
| Declarations.Classes | tools/python/xen/xend/XendAPI.py:194-200 | six distinct classes, Network not among them; session_required is the outermost validator of every class; Session has it alone and every other class one reference guard inside it |
| Declarations.ClassAttributes | tools/python/xen/xend/XendAPI.py:287-1000 | Session_funcs is absent (commented out) and Session_methods is ['logout']; every declared list is non-empty; the VM lists have 15 read-only, 27 read-write attributes and 10 methods |
| Declarations.InitialTable | tools/python/xen/xend/XendAPI.py:291-1015 | before __init__ runs no handler carries a guard, and only session_login_with_password carries an api tag, 'Session.login_with_password' |
| Api.ApiClass.constructor | tools/python/xen/xend/XendAPI.py:194-200 | the class starts with its own handlers and declarations, not yet patched |
| Api.ApiClass.WrapEntry | tools/python/xen/xend/XendAPI.py:233-240 | the validator loop and setattr leave the table as Wrap says |
| Api.ApiClass.WrapPass | tools/python/xen/xend/XendAPI.py:231-240 | one inner loop leaves the table as its registrations, applied in order, say |
| Api.ApiClass.WrapClass | tools/python/xen/xend/XendAPI.py:224-275 | one class iteration applies the class's getter, setter, method and function registrations in that order |
| Api.ApiClass.InstallIdentityHandlers | tools/python/xen/xend/XendAPI.py:207-213 | the cheat-methods loop leaves the table as InstallIdentities says |
| Api.ApiClass.WrapClasses | tools/python/xen/xend/XendAPI.py:224-275 | the wrapping loop applies every class's registrations, class after class |
| Api.ApiClass.Patch | tools/python/xen/xend/XendAPI.py:207-275 | identity installation followed by the wrapping loop leaves the table Build describes |
| Api.ApiClass.Init | tools/python/xen/xend/XendAPI.py:188-275 | the constructor, run once, leaves the table Build gives for the class's declarations and the six classes, and keeps the declarations |
| Surface.SessionLogoutWrapped | tools/python/xen/xend/XendAPI.py:194-195 | session_logout is wrapped in session_required alone and tagged Session.logout, despite the "left unwrapped" comment |
| Surface.SessionGettersWrapped | tools/python/xen/xend/XendAPI.py:231-240 | session_get_this_host and session_get_this_user, the getters of Session_attr_ro (line 287), keep their bodies and are wrapped in session_required alone, tagged Session.get_this_host and Session.get_this_user |
| Surface.LoginUnwrapped | tools/python/xen/xend/XendAPI.py:287-297 | with Session_funcs commented out, session_login_with_password stays exactly as defined: unguarded, with its own tag |
| Surface.HostRebootWrapped | tools/python/xen/xend/XendAPI.py:341-344 | host_reboot keeps its body under (valid_host, session_required) and is tagged Host.reboot |
| Surface.HostGetByUuidWrapped | tools/python/xen/xend/XendAPI.py:207-211 | host_get_by_uuid is the identity handler under session_required alone, tagged Host.get_by_uuid |
| Surface.HostCpuGetUuidWrapped | tools/python/xen/xend/XendAPI.py:406-408 | host_cpu_get_uuid is the identity handler, not the hand-written one, under (valid_host_cpu, session_required), tagged Host_CPU.get_uuid |
| Surface.VmGetByLabelWrapped | tools/python/xen/xend/XendAPI.py:513 | vm_get_by_label is wrapped in session_required alone, never valid_vm, and tagged VM.get_by_label |
| Surface.VbdCreateWrapped | tools/python/xen/xend/XendAPI.py:281 | vbd_create, from Base_funcs, is wrapped in session_required alone and tagged VBD.create |
| Surface.VifCreateWrapped | tools/python/xen/xend/XendAPI.py:281 | vif_create, from Base_funcs, is wrapped in session_required alone and tagged VIF.create |
| Surface.NetworkUntouched | tools/python/xen/xend/XendAPI.py:446-452 | Network is declared but not in classes, so every network_ name stays as defined |
| Calls.HostRebootCall | tools/python/xen/xend/XendAPI.py:373-376 | a call to wrapped host_reboot checks the session, then the host reference, and only then answers by the allow_new_domains flag; the world never changes |
| Calls.HostCpuGetUuidCall | tools/python/xen/xend/XendAPI.py:406-408 | a call to host_cpu_get_uuid with a live session and a known CPU echoes the reference, whatever the class defined |
| Calls.VmGetByLabelCall | tools/python/xen/xend/XendAPI.py:833-838 | a call to wrapped vm_get_by_label with a live session reaches the registry lookup with no reference check |
| Calls.VbdCreateCall | tools/python/xen/xend/XendAPI.py:955-965 | a call to wrapped vbd_create with a live session runs the body on the struct; valid_vbd never inspects it |
| Calls.VifCreateCall | tools/python/xen/xend/XendAPI.py:1005-1015 | a call to wrapped vif_create with a live session runs the body on the struct; valid_vif never inspects it |
| Calls.LoginCall | tools/python/xen/xend/XendAPI.py:291-297 | login needs no session: the call runs the credential check directly |
| Calls.LogoutThenRefused | tools/python/xen/xend/XendAPI.py:301-303 | logout with a live session answers a void success and ends it; the same session is then refused by session_required with a Failure |
| Calls.SessionRoundTrip | tools/python/xen/xend/XendAPI.py:291-320 | with accepted credentials, login answers the token; under it this_host answers the node uuid and this_user the bound user; logout answers a void success; this_user is then refused by session_required with a Failure, not an Error |

## Left out

- XML-RPC transport, and the logging of the `trace` decorator
  (lines 40-48): I/O with nothing to verify.
- The insides of `session_required` and `auth_manager`: `XendAuthSessions`
  is not part of this model. `session_required` is modelled like the
  reference guards: a session the store does not know is refused with a
  `Failure` carrying SESSION_INVALID. Session validity, `get_user`,
  `login_with_password` and `logout` are stated on the `World` value. The
  fresh token a login returns is a parameter.
- `XendDomain` and `XendNode` internals, including `do_vm_func` and
  everything it dispatches to: these are recorded as `Opaque` bodies that
  delegate with the caller's arguments.
- Pass-through getters, setters and record builders: these are `Opaque`
  bodies, or `Constant` where they return a fixed envelope.
- `<Cls>_attr_inst` lists: the constructor never reads them.
- Concurrency between a guard's check and the body it guards.
- Python dictionary order: Python 2 leaves the iteration order of
  `classes` unspecified; the model walks it in the order it is written.
- Copying of the `api` attribute inside the guard decorators
  (lines 66-67 and similar): superseded by the final tag.
- The `log.warn` for a missing handler: the skip is modelled, the log line
  is not.
- `*args`/`**kwargs` of the guards: arity is checked against each body's
  `Params`, and keyword arguments are not modelled.
- Surface: the table facts, and the Calls lemmas, are stated for any
  handler table that defines the names concerned as the class does, not by
  looking the names up in `InitialTable()`.
- Handlers.CreateIn: the reference `create_vbd`/`create_vif` returns is
  looked up per struct in `World.created`. The fresh uuid the domain
  generates is not modelled, so creating twice from the same struct yields
  the same reference.
- Api.ApiClass.Init: running it twice would wrap every handler twice; the
  model allows one run only.
