/**
 * The handler table XendAPI() leaves behind for the declarations of the
 * XendAPI class (XendAPI.py lines 188-1015): which guards and which tag
 * particular names end up with.
 *
 * The facts are stated for any handlers t the class body may define, and
 * for any declarations d that list, for the classes concerned, what the
 * class lists (the predicates SessionDeclares, HostDeclares, ...); the
 * lemmas SessionDeclared, HostDeclared, ... show that ClassAttributes()
 * is such a d, and the lemmas named ...Wrapped and ...Unwrapped put the two
 * together for the table of the class itself.
 *
 * Each fact about a name is proved in three steps: lemmas evaluating the
 * naming convention on the declared lists (which pass looks the name up,
 * under which declared name, and that the other passes do not), the generic
 * lemmas of module Registration turning that into the name's chain and tag
 * within its class, and BuildWrapped or BuildIdentity placing them in the
 * whole table once every other class is shown to leave the name alone.
 */
module Surface {
  import opened Wrappers
  import opened Guards
  import opened Handlers
  import opened Registration
  import opened Declarations

  /** The handler table once XendAPI() has been constructed over the
      handlers t the class body defines (InitialTable() in this model). */
  function Built(t: map<string, Handler>): map<string, Handler>
  {
    Build(t, ClassAttributes(), Classes())
  }

  /** What every name class j looks up starts with. */
  const Prefixes: seq<string> := ["session_", "host_", "host_cpu_", "vm_", "vbd_", "vif_"]

  lemma ClassCount()
    ensures |Classes()| == |Prefixes| == 6
  {
  }

  /** The classes dictionary, entry by entry. */
  lemma ClassEntries()
    ensures |Classes()| == |Prefixes| == 6
    ensures Classes()[0] == ("Session", [SessionRequired])
    ensures Classes()[1] == ("Host", [ValidHost, SessionRequired])
    ensures Classes()[2] == ("Host_CPU", [ValidHostCpu, SessionRequired])
    ensures Classes()[3] == ("VM", [ValidVm, SessionRequired])
    ensures Classes()[4] == ("VBD", [ValidVbd, SessionRequired])
    ensures Classes()[5] == ("VIF", [ValidVif, SessionRequired])
  {
  }

  lemma SessionLowered() ensures Lower("Session") == "session" {}
  lemma HostLowered() ensures Lower("Host") == "host" {}
  lemma HostCpuLowered() ensures Lower("Host_CPU") == "host_cpu" {}
  lemma VmLowered() ensures Lower("VM") == "vm" {}
  lemma VbdLowered() ensures Lower("VBD") == "vbd" {}
  lemma VifLowered() ensures Lower("VIF") == "vif" {}

  /** Prefixes[j] is the lower-cased name of class j and an underscore. */
  lemma ClassPrefix(j: nat)
    requires j < |Prefixes|
    ensures j < |Classes()| && Lower(Classes()[j].0) + "_" == Prefixes[j]
  {
    ClassEntries();
    if j == 0 {
      SessionLowered();
    } else if j == 1 {
      HostLowered();
    } else if j == 2 {
      HostCpuLowered();
    } else if j == 3 {
      VmLowered();
    } else if j == 4 {
      VbdLowered();
    } else {
      VifLowered();
    }
  }

  /** k starts with none of the class prefixes, save those at a and b. */
  predicate OnlyUnder(k: string, a: int, b: int)
  {
    && (a == 0 || b == 0 || !StartsWith(k, "session_"))
    && (a == 1 || b == 1 || !StartsWith(k, "host_"))
    && (a == 2 || b == 2 || !StartsWith(k, "host_cpu_"))
    && (a == 3 || b == 3 || !StartsWith(k, "vm_"))
    && (a == 4 || b == 4 || !StartsWith(k, "vbd_"))
    && (a == 5 || b == 5 || !StartsWith(k, "vif_"))
  }

  /** A name outside class j's prefix is nothing of class j's, whatever
      the declarations. */
  lemma Outside(d: map<string, seq<string>>, j: nat, k: string)
    requires j < |Prefixes| && !StartsWith(k, Prefixes[j])
    ensures j < |Classes()| && LeavesAlone(d, Classes(), j, k)
  {
    ClassPrefix(j);
    var cls := Classes()[j].0;
    StartsWithIsPrefix(k, Prefixes[j]);
    ClassMissesByPrefix(d, cls, Classes()[j].1, k);
    IdentityKeysUnderClass(cls, k);
  }

  /** Every class but i and b (which the caller deals with) leaves k alone
      when k starts with none of their prefixes. */
  lemma OthersOutside(d: map<string, seq<string>>, k: string, i: int, b: int)
    requires OnlyUnder(k, i, b)
    ensures forall j :: 0 <= j < |Classes()| && j != i && j != b ==> LeavesAlone(d, Classes(), j, k)
  {
    ClassCount();
    forall j | 0 <= j < |Classes()| && j != i && j != b
      ensures LeavesAlone(d, Classes(), j, k)
    {
      assert Prefixes[j] == ["session_", "host_", "host_cpu_", "vm_", "vbd_", "vif_"][j];
      if j == 0 {
      } else if j == 1 {
      } else if j == 2 {
      } else if j == 3 {
      } else if j == 4 {
      } else {
      }
      Outside(d, j, k);
    }
  }

  /** Class i and every other class leave k alone: all of them do. */
  lemma AllLeaveAlone(d: map<string, seq<string>>, k: string, i: nat)
    requires i < |Classes()| && LeavesAlone(d, Classes(), i, k)
    requires forall j :: 0 <= j < |Classes()| && j != i ==> LeavesAlone(d, Classes(), j, k)
    ensures forall j :: 0 <= j < |Classes()| ==> LeavesAlone(d, Classes(), j, k)
  {
  }

  /** n cannot fold to t: it has another length or another first letter. */
  predicate Unlike(n: string, t: string)
  {
    |n| != |t| || (|n| > 0 && LowerChar(n[0]) != t[0])
  }

  /** No name of the list can fold to t. */
  predicate NoneLike(names: seq<string>, t: string)
  {
    names == [] || (Unlike(names[0], t) && NoneLike(names[1..], t))
  }

  lemma {:induction false} FoldsToLength(n: string, t: string)
    ensures FoldsTo(n, t) ==> |n| == |t|
  {
    if n != [] && |t| > 0 {
      FoldsToLength(n[1..], t[1..]);
    }
  }

  lemma {:induction false} HitsNoneLike(names: seq<string>, t: string, skip: int)
    requires NoneLike(names, t)
    ensures Hits(names, t, skip) == 0
  {
    if names != [] {
      FoldsToLength(names[0], t);
      HitsNoneLike(names[1..], t, skip - 1);
    }
  }

  /** No name but the one at skip can fold to t: no other hit. */
  lemma {:induction false} HitsAllBut(names: seq<string>, t: string, skip: nat)
    requires skip < |names| && NoneLike(names[..skip], t) && NoneLike(names[skip + 1..], t)
    ensures Hits(names, t, skip) == 0
  {
    if skip == 0 {
      HitsNoneLike(names[1..], t, -1);
    } else {
      FoldsToLength(names[0], t);
      assert names[1..][..skip - 1] == names[..skip][1..];
      assert names[1..][skip..] == names[skip + 1..];
      HitsAllBut(names[1..], t, skip - 1);
    }
  }

  lemma {:induction false} NoneLikeConcat(a: seq<string>, b: seq<string>, t: string)
    requires NoneLike(a, t) && NoneLike(b, t)
    ensures NoneLike(a + b, t)
  {
    if a == [] {
      assert a + b == b;
    } else {
      assert (a + b)[0] == a[0] && (a + b)[1..] == a[1..] + b;
      NoneLikeConcat(a[1..], b, t);
    }
  }

  /** Network is declared but not in the classes dictionary: no name under
      its prefix is wrapped or tagged, whatever the declarations (lines
      446-452). */
  lemma NetworkUntouched(t: map<string, Handler>, d: map<string, seq<string>>, k: string)
    requires StartsWith(k, "network_")
    ensures k in Build(t, d, Classes()) <==> k in t
    ensures k in Build(t, d, Classes()) ==> Build(t, d, Classes())[k] == t[k]
  {
    assert k[0] == 'n';
    OthersOutside(d, k, -1, -1);
    ClassCount();
    BuildUntouched(t, d, Classes(), k);
  }

  /** The Session lists the method and function passes walk; the attribute
      passes look up only names under session_get_ and session_set_. */
  predicate SessionDeclares(d: map<string, seq<string>>)
  {
    && MethodsOf(d, "Session") == ["logout", "destroy", "to_XML", "get_record"]
    && FunctionsOf(d, "Session") == ["create", "get_by_uuid", "get_all"]
  }

  /** The class declares Session_methods and no Session_funcs: it is
      commented out (line 289). */
  lemma SessionDeclared()
    ensures SessionDeclares(ClassAttributes())
  {
    assert "Session" + "_methods" == "Session_methods" && "Session" + "_funcs" == "Session_funcs";
  }

  lemma SessionPrefixes()
    ensures Prefix(Getter, "Session") == "session_get_"
    ensures Prefix(Setter, "Session") == "session_set_"
    ensures Prefix(Method, "Session") == "session_"
    ensures Prefix(ClassFunction, "Session") == "session_"
  {
    SessionLowered();
  }

  /** session_logout: Session_methods names 'logout', and nothing else of
      any class folds to it. */
  lemma LogoutKey()
    ensures "session_logout" == Prefix(Method, "Session") + "logout"
  {
    SessionLowered();
  }

  lemma LogoutNames()
    ensures FoldsTo("logout", "logout")
    ensures Hits(["logout", "destroy", "to_XML", "get_record"], "logout", 0) == 0
    ensures Hits(["create", "get_by_uuid", "get_all"], "logout", -1) == 0
  {
  }

  lemma LogoutLookup(d: map<string, seq<string>>)
    requires SessionDeclares(d)
    ensures HitsAt(d, Method, "Session", "session_logout", "logout", 0)
  {
    LogoutKey();
    LogoutNames();
  }

  lemma LogoutSkipped(d: map<string, seq<string>>)
    ensures Skips(d, Getter, "Session", "session_logout")
    ensures Skips(d, Setter, "Session", "session_logout")
  {
    SessionPrefixes();
    assert !StartsWith("session_logout", "session_get_");
    assert !StartsWith("session_logout", "session_set_");
  }

  lemma LogoutNotFunction(d: map<string, seq<string>>)
    requires SessionDeclares(d)
    ensures Skips(d, ClassFunction, "Session", "session_logout")
  {
    SessionPrefixes();
    assert "session_logout"[8..] == "logout";
    LogoutNames();
  }

  lemma LogoutTag(d: map<string, seq<string>>)
    requires SessionDeclares(d)
    ensures ApiName(Method, "Session", MethodsOf(d, "Session")[0]) == "Session.logout"
  {
  }

  lemma LogoutElsewhere()
    ensures OnlyUnder("session_logout", 0, 0)
  {
  }

  lemma LogoutNotIdentity()
    ensures "session_logout" != GetByUuidKey(Classes()[0].0) && "session_logout" != GetUuidKey(Classes()[0].0)
  {
    ClassEntries();
    assert |GetByUuidKey("Session")| == 19 && |GetUuidKey("Session")| == 16;
  }

  lemma LogoutOwned(d: map<string, seq<string>>)
    requires SessionDeclares(d)
    ensures ChainFor(ClassRegistrations(d, Classes()[0].0, Classes()[0].1), "session_logout") == [SessionRequired]
    ensures forall current :: ApiFor(ClassRegistrations(d, Classes()[0].0, Classes()[0].1), "session_logout", current) == Some("Session.logout")
  {
    var k, vs := "session_logout", [SessionRequired];
    LogoutLookup(d);
    LogoutSkipped(d);
    LogoutNotFunction(d);
    LogoutTag(d);
    PassHitAt(d, Method, "Session", vs, k, "logout", 0);
    ClassHit(d, "Session", vs, k, Method, "Session.logout");
    ClassEntries();
  }

  /** Session is in the classes dictionary, so session_logout is wrapped in
      session_required and tagged, although the class comment says Session
      is left unwrapped (lines 194-195, 254-264, 285, 301-303). */
  lemma SessionLogoutRegistered(t: map<string, Handler>, d: map<string, seq<string>>)
    requires SessionDeclares(d)
    ensures "session_logout" in Build(t, d, Classes()) <==> "session_logout" in t
    ensures "session_logout" in Build(t, d, Classes()) ==>
      Build(t, d, Classes())["session_logout"] ==
        Handler(t["session_logout"].body, t["session_logout"].guards + [SessionRequired], Some("Session.logout"))
  {
    var k := "session_logout";
    LogoutOwned(d);
    LogoutElsewhere();
    LogoutNotIdentity();
    OthersOutside(d, k, 0, 0);
    BuildWrapped(t, d, Classes(), k, 0, [SessionRequired], "Session.logout");
  }

  lemma SessionLogoutWrapped(t: map<string, Handler>)
    ensures "session_logout" in Built(t) <==> "session_logout" in t
    ensures "session_logout" in Built(t) ==>
      Built(t)["session_logout"] ==
        Handler(t["session_logout"].body, t["session_logout"].guards + [SessionRequired], Some("Session.logout"))
  {
    SessionDeclared();
    SessionLogoutRegistered(t, ClassAttributes());
  }

  /** The Session list the getter pass walks: Session_attr_ro, then the
      base attribute 'uuid' (lines 231, 278, 287). */
  predicate SessionReadable(d: map<string, seq<string>>)
  {
    ReadableOf(d, "Session") == ["this_host", "this_user", "uuid"]
  }

  lemma SessionReadableDeclared()
    ensures SessionReadable(ClassAttributes())
  {
    assert "Session" + "_attr_ro" == "Session_attr_ro" && "Session" + "_attr_rw" == "Session_attr_rw";
  }

  /** A name that lower-cases to another letter than t at some position
      cannot fold to t. */
  lemma NotFoldsAt(n: string, t: string, i: nat)
    requires i < |n| && i < |t| && LowerChar(n[i]) != t[i]
    ensures !FoldsTo(n, t)
  {
    FoldsToIsLower(n, t);
  }

  /** session_get_this_host and session_get_this_user: the getters of the
      two Session_attr_ro entries, wrapped in session_required alone
      (lines 231-240, 287, 314-320). The two names differ first at their
      sixth letter. */
  lemma ThisHostNames()
    ensures FoldsTo("this_host", "this_host")
    ensures Hits(["this_host", "this_user", "uuid"], "this_host", 0) == 0
  {
    var rs := ["this_host", "this_user", "uuid"];
    NotFoldsAt("this_user", "this_host", 5);
    assert NoneLike(["uuid"], "this_host");
    HitsNoneLike(["uuid"], "this_host", -2);
    assert rs[1..] == ["this_user", "uuid"] && rs[1..][1..] == ["uuid"];
    assert Hits(rs[1..], "this_host", -1) == Hits(["uuid"], "this_host", -2);
  }

  lemma ThisUserNames()
    ensures FoldsTo("this_user", "this_user")
    ensures Hits(["this_host", "this_user", "uuid"], "this_user", 1) == 0
  {
    var rs := ["this_host", "this_user", "uuid"];
    NotFoldsAt("this_host", "this_user", 5);
    assert NoneLike(["uuid"], "this_user");
    HitsNoneLike(["uuid"], "this_user", -1);
    assert rs[1..] == ["this_user", "uuid"] && rs[1..][1..] == ["uuid"];
    assert Hits(rs[1..], "this_user", 0) == Hits(["uuid"], "this_user", -1);
  }

  lemma ThisHostKey()
    ensures "session_get_this_host" == Prefix(Getter, "Session") + "this_host"
  {
    SessionLowered();
  }

  lemma ThisUserKey()
    ensures "session_get_this_user" == Prefix(Getter, "Session") + "this_user"
  {
    SessionLowered();
  }

  lemma ThisHostLookup(d: map<string, seq<string>>)
    requires SessionReadable(d)
    ensures HitsAt(d, Getter, "Session", "session_get_this_host", "this_host", 0)
  {
    ThisHostKey();
    ThisHostNames();
  }

  lemma ThisUserLookup(d: map<string, seq<string>>)
    requires SessionReadable(d)
    ensures HitsAt(d, Getter, "Session", "session_get_this_user", "this_user", 1)
  {
    ThisUserKey();
    ThisUserNames();
  }

  lemma ThisHostNotCalls()
    ensures Hits(["logout", "destroy", "to_XML", "get_record"], "get_this_host", -1) == 0
    ensures Hits(["create", "get_by_uuid", "get_all"], "get_this_host", -1) == 0
  {
    HitsNoneLike(["logout", "destroy", "to_XML", "get_record"], "get_this_host", -1);
    HitsNoneLike(["create", "get_by_uuid", "get_all"], "get_this_host", -1);
  }

  lemma ThisUserNotCalls()
    ensures Hits(["logout", "destroy", "to_XML", "get_record"], "get_this_user", -1) == 0
    ensures Hits(["create", "get_by_uuid", "get_all"], "get_this_user", -1) == 0
  {
    HitsNoneLike(["logout", "destroy", "to_XML", "get_record"], "get_this_user", -1);
    HitsNoneLike(["create", "get_by_uuid", "get_all"], "get_this_user", -1);
  }

  lemma ThisHostNotSetter(d: map<string, seq<string>>)
    ensures Skips(d, Setter, "Session", "session_get_this_host")
  {
    SessionPrefixes();
    assert !StartsWith("session_get_this_host", "session_set_");
  }

  lemma ThisUserNotSetter(d: map<string, seq<string>>)
    ensures Skips(d, Setter, "Session", "session_get_this_user")
  {
    SessionPrefixes();
    assert !StartsWith("session_get_this_user", "session_set_");
  }

  lemma ThisHostNotCall(d: map<string, seq<string>>)
    requires SessionDeclares(d)
    ensures Skips(d, Method, "Session", "session_get_this_host")
    ensures Skips(d, ClassFunction, "Session", "session_get_this_host")
  {
    SessionPrefixes();
    assert "session_get_this_host"[8..] == "get_this_host";
    ThisHostNotCalls();
  }

  lemma ThisUserNotCall(d: map<string, seq<string>>)
    requires SessionDeclares(d)
    ensures Skips(d, Method, "Session", "session_get_this_user")
    ensures Skips(d, ClassFunction, "Session", "session_get_this_user")
  {
    SessionPrefixes();
    assert "session_get_this_user"[8..] == "get_this_user";
    ThisUserNotCalls();
  }

  lemma ThisHostTag(d: map<string, seq<string>>)
    requires SessionReadable(d)
    ensures ApiName(Getter, "Session", ReadableOf(d, "Session")[0]) == "Session.get_this_host"
  {
  }

  lemma ThisUserTag(d: map<string, seq<string>>)
    requires SessionReadable(d)
    ensures ApiName(Getter, "Session", ReadableOf(d, "Session")[1]) == "Session.get_this_user"
  {
  }

  lemma SessionGettersElsewhere()
    ensures OnlyUnder("session_get_this_host", 0, 0)
    ensures OnlyUnder("session_get_this_user", 0, 0)
  {
  }

  lemma SessionGettersNotIdentity()
    ensures "session_get_this_host" != GetByUuidKey(Classes()[0].0) && "session_get_this_host" != GetUuidKey(Classes()[0].0)
    ensures "session_get_this_user" != GetByUuidKey(Classes()[0].0) && "session_get_this_user" != GetUuidKey(Classes()[0].0)
  {
    ClassEntries();
    assert |GetByUuidKey("Session")| == 19 && |GetUuidKey("Session")| == 16;
  }

  lemma ThisHostOwned(d: map<string, seq<string>>)
    requires SessionDeclares(d) && SessionReadable(d)
    ensures ChainFor(ClassRegistrations(d, Classes()[0].0, Classes()[0].1), "session_get_this_host") == [SessionRequired]
    ensures forall current :: ApiFor(ClassRegistrations(d, Classes()[0].0, Classes()[0].1), "session_get_this_host", current) == Some("Session.get_this_host")
  {
    var k, vs := "session_get_this_host", [SessionRequired];
    ThisHostLookup(d);
    ThisHostNotSetter(d);
    ThisHostNotCall(d);
    ThisHostTag(d);
    PassHitAt(d, Getter, "Session", vs, k, "this_host", 0);
    ClassHit(d, "Session", vs, k, Getter, "Session.get_this_host");
    ClassEntries();
  }

  lemma ThisUserOwned(d: map<string, seq<string>>)
    requires SessionDeclares(d) && SessionReadable(d)
    ensures ChainFor(ClassRegistrations(d, Classes()[0].0, Classes()[0].1), "session_get_this_user") == [SessionRequired]
    ensures forall current :: ApiFor(ClassRegistrations(d, Classes()[0].0, Classes()[0].1), "session_get_this_user", current) == Some("Session.get_this_user")
  {
    var k, vs := "session_get_this_user", [SessionRequired];
    ThisUserLookup(d);
    ThisUserNotSetter(d);
    ThisUserNotCall(d);
    ThisUserTag(d);
    PassHitAt(d, Getter, "Session", vs, k, "this_user", 1);
    ClassHit(d, "Session", vs, k, Getter, "Session.get_this_user");
    ClassEntries();
  }

  lemma ThisHostRegistered(t: map<string, Handler>, d: map<string, seq<string>>)
    requires SessionDeclares(d) && SessionReadable(d)
    ensures "session_get_this_host" in Build(t, d, Classes()) <==> "session_get_this_host" in t
    ensures "session_get_this_host" in Build(t, d, Classes()) ==>
      Build(t, d, Classes())["session_get_this_host"] ==
        Handler(t["session_get_this_host"].body, t["session_get_this_host"].guards + [SessionRequired], Some("Session.get_this_host"))
  {
    var k := "session_get_this_host";
    ThisHostOwned(d);
    SessionGettersElsewhere();
    SessionGettersNotIdentity();
    OthersOutside(d, k, 0, 0);
    BuildWrapped(t, d, Classes(), k, 0, [SessionRequired], "Session.get_this_host");
  }

  lemma ThisUserRegistered(t: map<string, Handler>, d: map<string, seq<string>>)
    requires SessionDeclares(d) && SessionReadable(d)
    ensures "session_get_this_user" in Build(t, d, Classes()) <==> "session_get_this_user" in t
    ensures "session_get_this_user" in Build(t, d, Classes()) ==>
      Build(t, d, Classes())["session_get_this_user"] ==
        Handler(t["session_get_this_user"].body, t["session_get_this_user"].guards + [SessionRequired], Some("Session.get_this_user"))
  {
    var k := "session_get_this_user";
    ThisUserOwned(d);
    SessionGettersElsewhere();
    SessionGettersNotIdentity();
    OthersOutside(d, k, 0, 0);
    BuildWrapped(t, d, Classes(), k, 0, [SessionRequired], "Session.get_this_user");
  }

  /** Both Session getters end wrapped in session_required alone and tagged
      with their api names, like session_logout. */
  lemma SessionGettersWrapped(t: map<string, Handler>)
    ensures "session_get_this_host" in Built(t) <==> "session_get_this_host" in t
    ensures "session_get_this_host" in Built(t) ==>
      Built(t)["session_get_this_host"] ==
        Handler(t["session_get_this_host"].body, t["session_get_this_host"].guards + [SessionRequired], Some("Session.get_this_host"))
    ensures "session_get_this_user" in Built(t) <==> "session_get_this_user" in t
    ensures "session_get_this_user" in Built(t) ==>
      Built(t)["session_get_this_user"] ==
        Handler(t["session_get_this_user"].body, t["session_get_this_user"].guards + [SessionRequired], Some("Session.get_this_user"))
  {
    SessionDeclared();
    SessionReadableDeclared();
    ThisHostRegistered(t, ClassAttributes());
    ThisUserRegistered(t, ClassAttributes());
  }

  /** session_login_with_password: Session_funcs is commented out (line
      289), so no pass of any class looks it up, and it keeps the handler
      and tag the class gives it (lines 291-297). */
  lemma LoginNames()
    ensures Hits(["logout", "destroy", "to_XML", "get_record"], "login_with_password", -1) == 0
    ensures Hits(["create", "get_by_uuid", "get_all"], "login_with_password", -1) == 0
  {
  }

  lemma LoginSkipped(d: map<string, seq<string>>)
    ensures Skips(d, Getter, "Session", "session_login_with_password")
    ensures Skips(d, Setter, "Session", "session_login_with_password")
  {
    SessionPrefixes();
    assert !StartsWith("session_login_with_password", "session_get_");
    assert !StartsWith("session_login_with_password", "session_set_");
  }

  lemma LoginNotListed(d: map<string, seq<string>>)
    requires SessionDeclares(d)
    ensures Skips(d, Method, "Session", "session_login_with_password")
    ensures Skips(d, ClassFunction, "Session", "session_login_with_password")
  {
    SessionPrefixes();
    assert "session_login_with_password"[8..] == "login_with_password";
    LoginNames();
  }

  lemma LoginElsewhere()
    ensures OnlyUnder("session_login_with_password", 0, 0)
  {
  }

  lemma LoginNotIdentity()
    ensures "session_login_with_password" != GetByUuidKey(Classes()[0].0)
    ensures "session_login_with_password" != GetUuidKey(Classes()[0].0)
  {
    ClassEntries();
    assert |GetByUuidKey("Session")| == 19 && |GetUuidKey("Session")| == 16;
  }

  lemma LoginLeftBySession(d: map<string, seq<string>>)
    requires SessionDeclares(d)
    ensures LeavesAlone(d, Classes(), 0, "session_login_with_password")
  {
    var k := "session_login_with_password";
    LoginSkipped(d);
    LoginNotListed(d);
    ClassSkips(d, "Session", [SessionRequired], k);
    LoginNotIdentity();
    ClassEntries();
  }

  lemma LoginUnregistered(t: map<string, Handler>, d: map<string, seq<string>>)
    requires SessionDeclares(d)
    ensures "session_login_with_password" in Build(t, d, Classes()) <==> "session_login_with_password" in t
    ensures "session_login_with_password" in Build(t, d, Classes()) ==>
      Build(t, d, Classes())["session_login_with_password"] == t["session_login_with_password"]
  {
    var k := "session_login_with_password";
    LoginLeftBySession(d);
    LoginElsewhere();
    OthersOutside(d, k, 0, 0);
    AllLeaveAlone(d, k, 0);
    ClassCount();
    BuildUntouched(t, d, Classes(), k);
  }

  lemma LoginUnwrapped(t: map<string, Handler>)
    ensures "session_login_with_password" in Built(t) <==> "session_login_with_password" in t
    ensures "session_login_with_password" in Built(t) ==>
      Built(t)["session_login_with_password"] == t["session_login_with_password"]
  {
    SessionDeclared();
    LoginUnregistered(t, ClassAttributes());
  }

  /** The Host lists the getter, method and function passes walk. */
  predicate HostDeclares(d: map<string, seq<string>>)
  {
    && ReadableOf(d, "Host") == ["software_version", "resident_VMs", "host_CPUs", "name_label", "name_description", "uuid"]
    && MethodsOf(d, "Host") == ["disable", "enable", "reboot", "shutdown", "destroy", "to_XML", "get_record"]
    && FunctionsOf(d, "Host") == ["get_by_label", "create", "get_by_uuid", "get_all"]
  }

  lemma HostReadableDeclared()
    ensures ReadableOf(ClassAttributes(), "Host") ==
      ["software_version", "resident_VMs", "host_CPUs", "name_label", "name_description", "uuid"]
  {
    assert "Host" + "_attr_ro" == "Host_attr_ro" && "Host" + "_attr_rw" == "Host_attr_rw";
  }

  lemma HostDeclared()
    ensures HostDeclares(ClassAttributes())
  {
    HostReadableDeclared();
    assert "Host" + "_methods" == "Host_methods" && "Host" + "_funcs" == "Host_funcs";
  }

  lemma HostPrefixes()
    ensures Prefix(Getter, "Host") == "host_get_"
    ensures Prefix(Setter, "Host") == "host_set_"
    ensures Prefix(Method, "Host") == "host_"
    ensures Prefix(ClassFunction, "Host") == "host_"
  {
    HostLowered();
  }

  /** host_reboot: Host_methods names 'reboot'. */
  lemma RebootNames()
    ensures FoldsTo("reboot", "reboot")
    ensures Hits(["disable", "enable", "reboot", "shutdown", "destroy", "to_XML", "get_record"], "reboot", 2) == 0
    ensures Hits(["get_by_label", "create", "get_by_uuid", "get_all"], "reboot", -1) == 0
  {
    var ms := ["disable", "enable", "reboot", "shutdown", "destroy", "to_XML", "get_record"];
    assert ms[..2] == ["disable", "enable"] && ms[3..] == ["shutdown", "destroy", "to_XML", "get_record"];
    assert NoneLike(["disable", "enable"], "reboot");
    assert NoneLike(["shutdown", "destroy", "to_XML", "get_record"], "reboot");
    HitsAllBut(ms, "reboot", 2);
    HitsNoneLike(["get_by_label", "create", "get_by_uuid", "get_all"], "reboot", -1);
  }

  lemma RebootKey()
    ensures "host_reboot" == Prefix(Method, "Host") + "reboot"
  {
    HostLowered();
  }

  lemma RebootLookup(d: map<string, seq<string>>)
    requires HostDeclares(d)
    ensures HitsAt(d, Method, "Host", "host_reboot", "reboot", 2)
  {
    RebootKey();
    RebootNames();
  }

  lemma RebootSkipped(d: map<string, seq<string>>)
    ensures Skips(d, Getter, "Host", "host_reboot")
    ensures Skips(d, Setter, "Host", "host_reboot")
  {
    HostPrefixes();
    assert !StartsWith("host_reboot", "host_get_");
    assert !StartsWith("host_reboot", "host_set_");
  }

  lemma RebootNotFunction(d: map<string, seq<string>>)
    requires HostDeclares(d)
    ensures Skips(d, ClassFunction, "Host", "host_reboot")
  {
    HostPrefixes();
    assert "host_reboot"[5..] == "reboot";
    RebootNames();
  }

  lemma RebootTag(d: map<string, seq<string>>)
    requires HostDeclares(d)
    ensures ApiName(Method, "Host", MethodsOf(d, "Host")[2]) == "Host.reboot"
  {
  }

  lemma RebootElsewhere()
    ensures OnlyUnder("host_reboot", 1, 1)
  {
    assert !StartsWith("host_reboot", "host_cpu_");
  }

  lemma RebootNotIdentity()
    ensures "host_reboot" != GetByUuidKey(Classes()[1].0) && "host_reboot" != GetUuidKey(Classes()[1].0)
  {
    ClassEntries();
    assert |GetByUuidKey("Host")| == 16 && |GetUuidKey("Host")| == 13;
  }

  lemma RebootOwned(d: map<string, seq<string>>)
    requires HostDeclares(d)
    ensures ChainFor(ClassRegistrations(d, Classes()[1].0, Classes()[1].1), "host_reboot") == [ValidHost, SessionRequired]
    ensures forall current :: ApiFor(ClassRegistrations(d, Classes()[1].0, Classes()[1].1), "host_reboot", current) == Some("Host.reboot")
  {
    var k, vs := "host_reboot", [ValidHost, SessionRequired];
    RebootLookup(d);
    RebootSkipped(d);
    RebootNotFunction(d);
    RebootTag(d);
    PassHitAt(d, Method, "Host", vs, k, "reboot", 2);
    ClassHit(d, "Host", vs, k, Method, "Host.reboot");
    ClassEntries();
  }

  /** host_reboot is wrapped in valid_host inside session_required and
      tagged 'Host.reboot' (lines 194-200, 254-264, 373-376). */
  lemma HostRebootRegistered(t: map<string, Handler>, d: map<string, seq<string>>)
    requires HostDeclares(d)
    ensures "host_reboot" in Build(t, d, Classes()) <==> "host_reboot" in t
    ensures "host_reboot" in Build(t, d, Classes()) ==>
      Build(t, d, Classes())["host_reboot"] ==
        Handler(t["host_reboot"].body, t["host_reboot"].guards + [ValidHost, SessionRequired], Some("Host.reboot"))
  {
    var k := "host_reboot";
    RebootOwned(d);
    RebootElsewhere();
    RebootNotIdentity();
    OthersOutside(d, k, 1, 1);
    BuildWrapped(t, d, Classes(), k, 1, [ValidHost, SessionRequired], "Host.reboot");
  }

  lemma HostRebootWrapped(t: map<string, Handler>)
    ensures "host_reboot" in Built(t) <==> "host_reboot" in t
    ensures "host_reboot" in Built(t) ==>
      Built(t)["host_reboot"] ==
        Handler(t["host_reboot"].body, t["host_reboot"].guards + [ValidHost, SessionRequired], Some("Host.reboot"))
  {
    HostDeclared();
    HostRebootRegistered(t, ClassAttributes());
  }

  /** host_get_by_uuid: the identity handler installed by the cheat methods
      loop, then wrapped as the Base_funcs entry 'get_by_uuid' in
      session_required alone (lines 207-213, 266-272, 281). */
  lemma ByUuidFolds()
    ensures FoldsTo("get_by_uuid", "get_by_uuid")
  {
  }

  lemma ByUuidNames()
    ensures Hits(["get_by_label", "create", "get_by_uuid", "get_all"], "get_by_uuid", 2) == 0
  {
    var fs := ["get_by_label", "create", "get_by_uuid", "get_all"];
    assert fs[..2] == ["get_by_label", "create"] && fs[3..] == ["get_all"];
    HitsAllBut(fs, "get_by_uuid", 2);
  }

  lemma ByUuidNotHostMethod()
    ensures Hits(["disable", "enable", "reboot", "shutdown", "destroy", "to_XML", "get_record"], "get_by_uuid", -1) == 0
  {
    HitsNoneLike(["disable", "enable", "reboot", "shutdown", "destroy", "to_XML", "get_record"], "get_by_uuid", -1);
  }

  lemma ByUuidNotHostAttribute()
    ensures Hits(["software_version", "resident_VMs", "host_CPUs", "name_label", "name_description", "uuid"], "by_uuid", -1) == 0
  {
    HitsNoneLike(["software_version", "resident_VMs", "host_CPUs", "name_label", "name_description", "uuid"], "by_uuid", -1);
  }

  lemma HostByUuidKey()
    ensures "host_get_by_uuid" == Prefix(ClassFunction, "Host") + "get_by_uuid"
  {
    HostLowered();
  }

  lemma HostByUuidLookup(d: map<string, seq<string>>)
    requires HostDeclares(d)
    ensures HitsAt(d, ClassFunction, "Host", "host_get_by_uuid", "get_by_uuid", 2)
  {
    HostByUuidKey();
    ByUuidFolds();
    ByUuidNames();
  }

  lemma HostByUuidNotGetter(d: map<string, seq<string>>)
    requires HostDeclares(d)
    ensures Skips(d, Getter, "Host", "host_get_by_uuid")
    ensures Skips(d, Setter, "Host", "host_get_by_uuid")
  {
    HostPrefixes();
    assert "host_get_by_uuid"[9..] == "by_uuid";
    assert !StartsWith("host_get_by_uuid", "host_set_");
    ByUuidNotHostAttribute();
  }

  lemma HostByUuidNotMethod(d: map<string, seq<string>>)
    requires HostDeclares(d)
    ensures Skips(d, Method, "Host", "host_get_by_uuid")
  {
    HostPrefixes();
    assert "host_get_by_uuid"[5..] == "get_by_uuid";
    ByUuidNotHostMethod();
  }

  lemma HostByUuidTag(d: map<string, seq<string>>)
    requires HostDeclares(d)
    ensures ApiName(ClassFunction, "Host", FunctionsOf(d, "Host")[2]) == "Host.get_by_uuid"
  {
  }

  lemma HostByUuidElsewhere()
    ensures OnlyUnder("host_get_by_uuid", 1, 1)
  {
    assert !StartsWith("host_get_by_uuid", "host_cpu_");
  }

  lemma HostByUuidIsIdentity()
    ensures "host_get_by_uuid" == GetByUuidKey(Classes()[1].0)
  {
    ClassEntries();
    HostLowered();
  }

  lemma HostByUuidOwned(d: map<string, seq<string>>)
    requires HostDeclares(d)
    ensures ChainFor(ClassRegistrations(d, Classes()[1].0, Classes()[1].1), "host_get_by_uuid") == [SessionRequired]
    ensures forall current :: ApiFor(ClassRegistrations(d, Classes()[1].0, Classes()[1].1), "host_get_by_uuid", current) == Some("Host.get_by_uuid")
  {
    var k, vs := "host_get_by_uuid", [ValidHost, SessionRequired];
    HostByUuidLookup(d);
    HostByUuidNotGetter(d);
    HostByUuidNotMethod(d);
    HostByUuidTag(d);
    PassHitAt(d, ClassFunction, "Host", vs, k, "get_by_uuid", 2);
    ClassHit(d, "Host", vs, k, ClassFunction, "Host.get_by_uuid");
    ClassEntries();
  }

  lemma HostGetByUuidRegistered(t: map<string, Handler>, d: map<string, seq<string>>)
    requires HostDeclares(d)
    ensures "host_get_by_uuid" in Build(t, d, Classes())
    ensures Build(t, d, Classes())["host_get_by_uuid"] == Handler(Identity, [SessionRequired], Some("Host.get_by_uuid"))
  {
    var k := "host_get_by_uuid";
    HostByUuidOwned(d);
    HostByUuidElsewhere();
    HostByUuidIsIdentity();
    OthersOutside(d, k, 1, 1);
    BuildIdentity(t, d, Classes(), k, 1, [SessionRequired], "Host.get_by_uuid");
  }

  lemma HostGetByUuidWrapped(t: map<string, Handler>)
    ensures "host_get_by_uuid" in Built(t)
    ensures Built(t)["host_get_by_uuid"] == Handler(Identity, [SessionRequired], Some("Host.get_by_uuid"))
  {
    HostDeclared();
    HostGetByUuidRegistered(t, ClassAttributes());
  }

  /** The Host_CPU lists: its own readable attributes, then the base ones;
      only the base methods and functions. */
  predicate HostCpuDeclares(d: map<string, seq<string>>)
  {
    && ReadableOf(d, "Host_CPU") == ["host", "number", "features", "utilisation", "uuid"]
    && MethodsOf(d, "Host_CPU") == ["destroy", "to_XML", "get_record"]
    && FunctionsOf(d, "Host_CPU") == ["create", "get_by_uuid", "get_all"]
  }

  lemma HostCpuReadableDeclared()
    ensures ReadableOf(ClassAttributes(), "Host_CPU") == ["host", "number", "features", "utilisation", "uuid"]
  {
    assert "Host_CPU" + "_attr_ro" == "Host_CPU_attr_ro" && "Host_CPU" + "_attr_rw" == "Host_CPU_attr_rw";
  }

  lemma HostCpuDeclared()
    ensures HostCpuDeclares(ClassAttributes())
  {
    HostCpuReadableDeclared();
    assert "Host_CPU" + "_methods" == "Host_CPU_methods" && "Host_CPU" + "_funcs" == "Host_CPU_funcs";
  }

  lemma HostCpuPrefixes()
    ensures Prefix(Getter, "Host_CPU") == "host_cpu_get_"
    ensures Prefix(Setter, "Host_CPU") == "host_cpu_set_"
    ensures Prefix(Method, "Host_CPU") == "host_cpu_"
    ensures Prefix(ClassFunction, "Host_CPU") == "host_cpu_"
  {
    HostCpuLowered();
  }

  /** host_cpu_get_uuid: the identity handler of the cheat methods loop,
      then wrapped as the getter of the base attribute 'uuid' in
      valid_host_cpu inside session_required (lines 207-213, 231-240,
      406-408). */
  lemma CpuUuidFolds()
    ensures FoldsTo("uuid", "uuid")
  {
  }

  lemma CpuUuidNames()
    ensures Hits(["host", "number", "features", "utilisation", "uuid"], "uuid", 4) == 0
  {
    var rs := ["host", "number", "features", "utilisation", "uuid"];
    assert rs[..4] == ["host", "number", "features", "utilisation"] && rs[5..] == [];
    assert NoneLike(["host", "number", "features", "utilisation"], "uuid");
    assert NoneLike([], "uuid");
    HitsAllBut(rs, "uuid", 4);
  }

  lemma CpuUuidNotBase()
    ensures Hits(["destroy", "to_XML", "get_record"], "get_uuid", -1) == 0
    ensures Hits(["create", "get_by_uuid", "get_all"], "get_uuid", -1) == 0
  {
    HitsNoneLike(["destroy", "to_XML", "get_record"], "get_uuid", -1);
    HitsNoneLike(["create", "get_by_uuid", "get_all"], "get_uuid", -1);
  }

  lemma HostCpuUuidKey()
    ensures "host_cpu_get_uuid" == Prefix(Getter, "Host_CPU") + "uuid"
  {
    HostCpuLowered();
  }

  lemma HostCpuUuidLookup(d: map<string, seq<string>>)
    requires HostCpuDeclares(d)
    ensures HitsAt(d, Getter, "Host_CPU", "host_cpu_get_uuid", "uuid", 4)
  {
    HostCpuUuidKey();
    CpuUuidFolds();
    CpuUuidNames();
  }

  lemma HostCpuUuidNotSetter(d: map<string, seq<string>>)
    ensures Skips(d, Setter, "Host_CPU", "host_cpu_get_uuid")
  {
    HostCpuPrefixes();
    assert !StartsWith("host_cpu_get_uuid", "host_cpu_set_");
  }

  lemma HostCpuUuidNotMethod(d: map<string, seq<string>>)
    requires HostCpuDeclares(d)
    ensures Skips(d, Method, "Host_CPU", "host_cpu_get_uuid")
    ensures Skips(d, ClassFunction, "Host_CPU", "host_cpu_get_uuid")
  {
    HostCpuPrefixes();
    assert "host_cpu_get_uuid"[9..] == "get_uuid";
    CpuUuidNotBase();
  }

  lemma HostCpuUuidTag(d: map<string, seq<string>>)
    requires HostCpuDeclares(d)
    ensures |ReadableOf(d, "Host_CPU")| == 5
    ensures ApiName(Getter, "Host_CPU", ReadableOf(d, "Host_CPU")[4]) == "Host_CPU.get_uuid"
  {
  }

  /** The Host class shares the prefix 'host_' but looks up nothing called
      'cpu_get_uuid'. */
  lemma CpuUuidNotHost()
    ensures Hits(["disable", "enable", "reboot", "shutdown", "destroy", "to_XML", "get_record"], "cpu_get_uuid", -1) == 0
    ensures Hits(["get_by_label", "create", "get_by_uuid", "get_all"], "cpu_get_uuid", -1) == 0
  {
    HitsNoneLike(["disable", "enable", "reboot", "shutdown", "destroy", "to_XML", "get_record"], "cpu_get_uuid", -1);
    HitsNoneLike(["get_by_label", "create", "get_by_uuid", "get_all"], "cpu_get_uuid", -1);
  }

  lemma HostAttributesSkipCpuUuid(d: map<string, seq<string>>)
    ensures Skips(d, Getter, "Host", "host_cpu_get_uuid")
    ensures Skips(d, Setter, "Host", "host_cpu_get_uuid")
  {
    HostPrefixes();
    assert !StartsWith("host_cpu_get_uuid", "host_get_");
    assert !StartsWith("host_cpu_get_uuid", "host_set_");
  }

  lemma HostCallsSkipCpuUuid(d: map<string, seq<string>>)
    requires HostDeclares(d)
    ensures Skips(d, Method, "Host", "host_cpu_get_uuid")
    ensures Skips(d, ClassFunction, "Host", "host_cpu_get_uuid")
  {
    HostPrefixes();
    assert "host_cpu_get_uuid"[5..] == "cpu_get_uuid";
    CpuUuidNotHost();
  }

  lemma CpuUuidNotHostIdentity()
    ensures "host_cpu_get_uuid" != GetByUuidKey(Classes()[1].0) && "host_cpu_get_uuid" != GetUuidKey(Classes()[1].0)
  {
    ClassEntries();
    assert |GetByUuidKey("Host")| == 16 && |GetUuidKey("Host")| == 13;
  }

  lemma HostLeavesCpuUuid(d: map<string, seq<string>>)
    requires HostDeclares(d)
    ensures LeavesAlone(d, Classes(), 1, "host_cpu_get_uuid")
  {
    var k := "host_cpu_get_uuid";
    HostAttributesSkipCpuUuid(d);
    HostCallsSkipCpuUuid(d);
    ClassSkips(d, "Host", [ValidHost, SessionRequired], k);
    CpuUuidNotHostIdentity();
    ClassEntries();
  }

  lemma HostCpuUuidElsewhere()
    ensures OnlyUnder("host_cpu_get_uuid", 1, 2)
  {
  }

  lemma HostCpuUuidIsIdentity()
    ensures "host_cpu_get_uuid" == GetUuidKey(Classes()[2].0)
  {
    ClassEntries();
    HostCpuLowered();
  }

  lemma HostCpuUuidOwned(d: map<string, seq<string>>)
    requires HostCpuDeclares(d)
    ensures ChainFor(ClassRegistrations(d, Classes()[2].0, Classes()[2].1), "host_cpu_get_uuid") == [ValidHostCpu, SessionRequired]
    ensures forall current :: ApiFor(ClassRegistrations(d, Classes()[2].0, Classes()[2].1), "host_cpu_get_uuid", current) == Some("Host_CPU.get_uuid")
  {
    var k, vs := "host_cpu_get_uuid", [ValidHostCpu, SessionRequired];
    HostCpuUuidLookup(d);
    HostCpuUuidNotSetter(d);
    HostCpuUuidNotMethod(d);
    HostCpuUuidTag(d);
    PassHitAt(d, Getter, "Host_CPU", vs, k, "uuid", 4);
    ClassHit(d, "Host_CPU", vs, k, Getter, "Host_CPU.get_uuid");
    ClassEntries();
  }

  /** Every class but Host_CPU leaves host_cpu_get_uuid alone. */
  lemma HostCpuUuidOthers(d: map<string, seq<string>>)
    requires HostDeclares(d)
    ensures forall j :: 0 <= j < |Classes()| && j != 2 ==> LeavesAlone(d, Classes(), j, "host_cpu_get_uuid")
  {
    HostCpuUuidElsewhere();
    OthersOutside(d, "host_cpu_get_uuid", 1, 2);
    HostLeavesCpuUuid(d);
  }

  lemma HostCpuGetUuidRegistered(t: map<string, Handler>, d: map<string, seq<string>>)
    requires HostDeclares(d) && HostCpuDeclares(d)
    ensures "host_cpu_get_uuid" in Build(t, d, Classes())
    ensures Build(t, d, Classes())["host_cpu_get_uuid"] == Handler(Identity, [ValidHostCpu, SessionRequired], Some("Host_CPU.get_uuid"))
  {
    var k := "host_cpu_get_uuid";
    HostCpuUuidOwned(d);
    HostCpuUuidIsIdentity();
    HostCpuUuidOthers(d);
    BuildIdentity(t, d, Classes(), k, 2, [ValidHostCpu, SessionRequired], "Host_CPU.get_uuid");
  }

  lemma HostCpuGetUuidWrapped(t: map<string, Handler>)
    ensures "host_cpu_get_uuid" in Built(t)
    ensures Built(t)["host_cpu_get_uuid"] == Handler(Identity, [ValidHostCpu, SessionRequired], Some("Host_CPU.get_uuid"))
  {
    HostDeclared();
    HostCpuDeclared();
    HostCpuGetUuidRegistered(t, ClassAttributes());
  }

  /** The VM lists the getter, method and function passes walk. */
  predicate VmDeclares(d: map<string, seq<string>>)
  {
    && ReadableOf(d, "VM") ==
         (VmStateAttrs + VmVcpuAttrs + VmDeviceAttrs)
         + (VmNameAttrs + VmTuningAttrs + VmActionAttrs + VmPlatformAttrs + VmBootAttrs) + ["uuid"]
    && MethodsOf(d, "VM") == VmStartMethods + VmStopMethods + ["destroy", "to_XML", "get_record"]
    && FunctionsOf(d, "VM") == ["get_by_label", "create", "get_by_uuid", "get_all"]
  }

  lemma VmDeclared()
    ensures VmDeclares(ClassAttributes())
  {
    assert "VM" + "_attr_ro" == "VM_attr_ro" && "VM" + "_attr_rw" == "VM_attr_rw";
    assert "VM" + "_methods" == "VM_methods" && "VM" + "_funcs" == "VM_funcs";
  }

  lemma VmPrefixes()
    ensures Prefix(Getter, "VM") == "vm_get_"
    ensures Prefix(Setter, "VM") == "vm_set_"
    ensures Prefix(Method, "VM") == "vm_"
    ensures Prefix(ClassFunction, "VM") == "vm_"
  {
    VmLowered();
  }

  /** vm_get_by_label: VM_funcs names 'get_by_label'; no readable attribute
      of VM can fold to 'by_label', so the getter pass passes it by. */
  lemma ByLabelReadOnly()
    ensures NoneLike(VmStateAttrs, "by_label") && NoneLike(VmVcpuAttrs, "by_label")
    ensures NoneLike(VmDeviceAttrs, "by_label")
  {
  }

  lemma ByLabelReadWrite()
    ensures NoneLike(VmNameAttrs, "by_label") && NoneLike(VmTuningAttrs, "by_label")
    ensures NoneLike(VmActionAttrs, "by_label")
  {
  }

  lemma ByLabelReadWriteRest()
    ensures NoneLike(VmPlatformAttrs, "by_label") && NoneLike(VmBootAttrs, "by_label")
    ensures NoneLike(["uuid"], "by_label")
  {
  }

  lemma ByLabelNotAttribute()
    ensures Hits((VmStateAttrs + VmVcpuAttrs + VmDeviceAttrs)
                 + (VmNameAttrs + VmTuningAttrs + VmActionAttrs + VmPlatformAttrs + VmBootAttrs) + ["uuid"], "by_label", -1) == 0
  {
    var t := "by_label";
    ByLabelReadOnly();
    ByLabelReadWrite();
    ByLabelReadWriteRest();
    NoneLikeConcat(VmStateAttrs, VmVcpuAttrs, t);
    NoneLikeConcat(VmStateAttrs + VmVcpuAttrs, VmDeviceAttrs, t);
    NoneLikeConcat(VmNameAttrs, VmTuningAttrs, t);
    NoneLikeConcat(VmNameAttrs + VmTuningAttrs, VmActionAttrs, t);
    NoneLikeConcat(VmNameAttrs + VmTuningAttrs + VmActionAttrs, VmPlatformAttrs, t);
    NoneLikeConcat(VmNameAttrs + VmTuningAttrs + VmActionAttrs + VmPlatformAttrs, VmBootAttrs, t);
    var ro := VmStateAttrs + VmVcpuAttrs + VmDeviceAttrs;
    var rw := VmNameAttrs + VmTuningAttrs + VmActionAttrs + VmPlatformAttrs + VmBootAttrs;
    NoneLikeConcat(ro, rw, t);
    NoneLikeConcat(ro + rw, ["uuid"], t);
    HitsNoneLike(ro + rw + ["uuid"], t, -1);
  }

  lemma ByLabelNotMethod()
    ensures Hits(VmStartMethods + VmStopMethods + ["destroy", "to_XML", "get_record"], "get_by_label", -1) == 0
  {
    var t := "get_by_label";
    assert NoneLike(VmStartMethods, t) && NoneLike(VmStopMethods, t);
    assert NoneLike(["destroy", "to_XML", "get_record"], t);
    NoneLikeConcat(VmStartMethods, VmStopMethods, t);
    NoneLikeConcat(VmStartMethods + VmStopMethods, ["destroy", "to_XML", "get_record"], t);
    HitsNoneLike(VmStartMethods + VmStopMethods + ["destroy", "to_XML", "get_record"], t, -1);
  }

  lemma ByLabelFolds()
    ensures FoldsTo("get_by_label", "get_by_label")
  {
  }

  lemma ByLabelNames()
    ensures Hits(["get_by_label", "create", "get_by_uuid", "get_all"], "get_by_label", 0) == 0
  {
    var fs := ["get_by_label", "create", "get_by_uuid", "get_all"];
    assert fs[..0] == [] && fs[1..] == ["create", "get_by_uuid", "get_all"];
    assert NoneLike([], "get_by_label");
    assert NoneLike(["create", "get_by_uuid", "get_all"], "get_by_label");
    HitsAllBut(fs, "get_by_label", 0);
  }

  lemma VmByLabelKey()
    ensures "vm_get_by_label" == Prefix(ClassFunction, "VM") + "get_by_label"
  {
    VmLowered();
  }

  lemma VmByLabelLookup(d: map<string, seq<string>>)
    requires VmDeclares(d)
    ensures HitsAt(d, ClassFunction, "VM", "vm_get_by_label", "get_by_label", 0)
  {
    VmByLabelKey();
    ByLabelFolds();
    ByLabelNames();
  }

  lemma VmByLabelNotGetter(d: map<string, seq<string>>)
    requires VmDeclares(d)
    ensures Skips(d, Getter, "VM", "vm_get_by_label")
    ensures Skips(d, Setter, "VM", "vm_get_by_label")
  {
    VmPrefixes();
    assert "vm_get_by_label"[7..] == "by_label";
    assert !StartsWith("vm_get_by_label", "vm_set_");
    ByLabelNotAttribute();
  }

  lemma VmByLabelNotMethod(d: map<string, seq<string>>)
    requires VmDeclares(d)
    ensures Skips(d, Method, "VM", "vm_get_by_label")
  {
    VmPrefixes();
    assert "vm_get_by_label"[3..] == "get_by_label";
    ByLabelNotMethod();
  }

  lemma VmByLabelTag(d: map<string, seq<string>>)
    requires VmDeclares(d)
    ensures ApiName(ClassFunction, "VM", FunctionsOf(d, "VM")[0]) == "VM.get_by_label"
  {
  }

  lemma VmByLabelElsewhere()
    ensures OnlyUnder("vm_get_by_label", 3, 3)
  {
  }

  lemma VmByLabelNotIdentity()
    ensures "vm_get_by_label" != GetByUuidKey(Classes()[3].0) && "vm_get_by_label" != GetUuidKey(Classes()[3].0)
  {
    ClassEntries();
    assert |GetByUuidKey("VM")| == 14 && |GetUuidKey("VM")| == 11;
  }

  lemma VmByLabelOwned(d: map<string, seq<string>>)
    requires VmDeclares(d)
    ensures ChainFor(ClassRegistrations(d, Classes()[3].0, Classes()[3].1), "vm_get_by_label") == [SessionRequired]
    ensures forall current :: ApiFor(ClassRegistrations(d, Classes()[3].0, Classes()[3].1), "vm_get_by_label", current) == Some("VM.get_by_label")
  {
    var k, vs := "vm_get_by_label", [ValidVm, SessionRequired];
    VmByLabelLookup(d);
    VmByLabelNotGetter(d);
    VmByLabelNotMethod(d);
    VmByLabelTag(d);
    PassHitAt(d, ClassFunction, "VM", vs, k, "get_by_label", 0);
    ClassHit(d, "VM", vs, k, ClassFunction, "VM.get_by_label");
    ClassEntries();
  }

  /** vm_get_by_label is a class function: it is wrapped in session_required
      alone, never in valid_vm, and tagged 'VM.get_by_label' (lines 266-272,
      833-838). */
  lemma VmGetByLabelRegistered(t: map<string, Handler>, d: map<string, seq<string>>)
    requires VmDeclares(d)
    ensures "vm_get_by_label" in Build(t, d, Classes()) <==> "vm_get_by_label" in t
    ensures "vm_get_by_label" in Build(t, d, Classes()) ==>
      Build(t, d, Classes())["vm_get_by_label"] ==
        Handler(t["vm_get_by_label"].body, t["vm_get_by_label"].guards + [SessionRequired], Some("VM.get_by_label"))
  {
    var k := "vm_get_by_label";
    VmByLabelOwned(d);
    VmByLabelElsewhere();
    VmByLabelNotIdentity();
    OthersOutside(d, k, 3, 3);
    BuildWrapped(t, d, Classes(), k, 3, [SessionRequired], "VM.get_by_label");
  }

  lemma VmGetByLabelWrapped(t: map<string, Handler>)
    ensures "vm_get_by_label" in Built(t) <==> "vm_get_by_label" in t
    ensures "vm_get_by_label" in Built(t) ==>
      Built(t)["vm_get_by_label"] ==
        Handler(t["vm_get_by_label"].body, t["vm_get_by_label"].guards + [SessionRequired], Some("VM.get_by_label"))
  {
    VmDeclared();
    VmGetByLabelRegistered(t, ClassAttributes());
  }

  /** The VBD lists: VBD declares no methods or functions of its own. */
  predicate VbdDeclares(d: map<string, seq<string>>)
  {
    && MethodsOf(d, "VBD") == ["destroy", "to_XML", "get_record"]
    && FunctionsOf(d, "VBD") == ["create", "get_by_uuid", "get_all"]
  }

  lemma VbdDeclared()
    ensures VbdDeclares(ClassAttributes())
  {
    assert "VBD" + "_methods" == "VBD_methods" && "VBD" + "_funcs" == "VBD_funcs";
  }

  lemma VbdPrefixes()
    ensures Prefix(Getter, "VBD") == "vbd_get_"
    ensures Prefix(Setter, "VBD") == "vbd_set_"
    ensures Prefix(Method, "VBD") == "vbd_"
    ensures Prefix(ClassFunction, "VBD") == "vbd_"
  {
    VbdLowered();
  }

  /** vbd_create and vif_create: Base_funcs names 'create'. */
  lemma CreateNames()
    ensures FoldsTo("create", "create")
    ensures Hits(["create", "get_by_uuid", "get_all"], "create", 0) == 0
    ensures Hits(["destroy", "to_XML", "get_record"], "create", -1) == 0
  {
  }

  lemma VbdCreateLookup(d: map<string, seq<string>>)
    requires VbdDeclares(d)
    ensures HitsAt(d, ClassFunction, "VBD", "vbd_create", "create", 0)
  {
    VbdPrefixes();
    CreateNames();
  }

  lemma VbdCreateSkipped(d: map<string, seq<string>>)
    ensures Skips(d, Getter, "VBD", "vbd_create")
    ensures Skips(d, Setter, "VBD", "vbd_create")
  {
    VbdPrefixes();
    assert !StartsWith("vbd_create", "vbd_get_");
    assert !StartsWith("vbd_create", "vbd_set_");
  }

  lemma VbdCreateNotMethod(d: map<string, seq<string>>)
    requires VbdDeclares(d)
    ensures Skips(d, Method, "VBD", "vbd_create")
  {
    VbdPrefixes();
    assert "vbd_create"[4..] == "create";
    CreateNames();
  }

  lemma VbdCreateTag(d: map<string, seq<string>>)
    requires VbdDeclares(d)
    ensures ApiName(ClassFunction, "VBD", FunctionsOf(d, "VBD")[0]) == "VBD.create"
  {
  }

  lemma VbdCreateElsewhere()
    ensures OnlyUnder("vbd_create", 4, 4)
  {
  }

  lemma VbdCreateNotIdentity()
    ensures "vbd_create" != GetByUuidKey(Classes()[4].0) && "vbd_create" != GetUuidKey(Classes()[4].0)
  {
    ClassEntries();
    assert |GetByUuidKey("VBD")| == 15 && |GetUuidKey("VBD")| == 12;
  }

  lemma VbdCreateOwned(d: map<string, seq<string>>)
    requires VbdDeclares(d)
    ensures ChainFor(ClassRegistrations(d, Classes()[4].0, Classes()[4].1), "vbd_create") == [SessionRequired]
    ensures forall current :: ApiFor(ClassRegistrations(d, Classes()[4].0, Classes()[4].1), "vbd_create", current) == Some("VBD.create")
  {
    var k, vs := "vbd_create", [ValidVbd, SessionRequired];
    VbdCreateLookup(d);
    VbdCreateSkipped(d);
    VbdCreateNotMethod(d);
    VbdCreateTag(d);
    PassHitAt(d, ClassFunction, "VBD", vs, k, "create", 0);
    ClassHit(d, "VBD", vs, k, ClassFunction, "VBD.create");
    ClassEntries();
  }

  /** vbd_create comes from Base_funcs, so it is wrapped in session_required
      alone, never in valid_vbd, and tagged 'VBD.create' (lines 266-272, 281,
      955-965). */
  lemma VbdCreateRegistered(t: map<string, Handler>, d: map<string, seq<string>>)
    requires VbdDeclares(d)
    ensures "vbd_create" in Build(t, d, Classes()) <==> "vbd_create" in t
    ensures "vbd_create" in Build(t, d, Classes()) ==>
      Build(t, d, Classes())["vbd_create"] ==
        Handler(t["vbd_create"].body, t["vbd_create"].guards + [SessionRequired], Some("VBD.create"))
  {
    var k := "vbd_create";
    VbdCreateOwned(d);
    VbdCreateElsewhere();
    VbdCreateNotIdentity();
    OthersOutside(d, k, 4, 4);
    BuildWrapped(t, d, Classes(), k, 4, [SessionRequired], "VBD.create");
  }

  lemma VbdCreateWrapped(t: map<string, Handler>)
    ensures "vbd_create" in Built(t) <==> "vbd_create" in t
    ensures "vbd_create" in Built(t) ==>
      Built(t)["vbd_create"] ==
        Handler(t["vbd_create"].body, t["vbd_create"].guards + [SessionRequired], Some("VBD.create"))
  {
    VbdDeclared();
    VbdCreateRegistered(t, ClassAttributes());
  }

  /** The VIF lists: VIF declares no methods or functions of its own. */
  predicate VifDeclares(d: map<string, seq<string>>)
  {
    && MethodsOf(d, "VIF") == ["destroy", "to_XML", "get_record"]
    && FunctionsOf(d, "VIF") == ["create", "get_by_uuid", "get_all"]
  }

  lemma VifDeclared()
    ensures VifDeclares(ClassAttributes())
  {
    assert "VIF" + "_methods" == "VIF_methods" && "VIF" + "_funcs" == "VIF_funcs";
  }

  lemma VifPrefixes()
    ensures Prefix(Getter, "VIF") == "vif_get_"
    ensures Prefix(Setter, "VIF") == "vif_set_"
    ensures Prefix(Method, "VIF") == "vif_"
    ensures Prefix(ClassFunction, "VIF") == "vif_"
  {
    VifLowered();
  }

  lemma VifCreateLookup(d: map<string, seq<string>>)
    requires VifDeclares(d)
    ensures HitsAt(d, ClassFunction, "VIF", "vif_create", "create", 0)
  {
    VifPrefixes();
    CreateNames();
  }

  lemma VifCreateSkipped(d: map<string, seq<string>>)
    ensures Skips(d, Getter, "VIF", "vif_create")
    ensures Skips(d, Setter, "VIF", "vif_create")
  {
    VifPrefixes();
    assert !StartsWith("vif_create", "vif_get_");
    assert !StartsWith("vif_create", "vif_set_");
  }

  lemma VifCreateNotMethod(d: map<string, seq<string>>)
    requires VifDeclares(d)
    ensures Skips(d, Method, "VIF", "vif_create")
  {
    VifPrefixes();
    assert "vif_create"[4..] == "create";
    CreateNames();
  }

  lemma VifCreateTag(d: map<string, seq<string>>)
    requires VifDeclares(d)
    ensures ApiName(ClassFunction, "VIF", FunctionsOf(d, "VIF")[0]) == "VIF.create"
  {
  }

  lemma VifCreateElsewhere()
    ensures OnlyUnder("vif_create", 5, 5)
  {
  }

  lemma VifCreateNotIdentity()
    ensures "vif_create" != GetByUuidKey(Classes()[5].0) && "vif_create" != GetUuidKey(Classes()[5].0)
  {
    ClassEntries();
    assert |GetByUuidKey("VIF")| == 15 && |GetUuidKey("VIF")| == 12;
  }

  lemma VifCreateOwned(d: map<string, seq<string>>)
    requires VifDeclares(d)
    ensures ChainFor(ClassRegistrations(d, Classes()[5].0, Classes()[5].1), "vif_create") == [SessionRequired]
    ensures forall current :: ApiFor(ClassRegistrations(d, Classes()[5].0, Classes()[5].1), "vif_create", current) == Some("VIF.create")
  {
    var k, vs := "vif_create", [ValidVif, SessionRequired];
    VifCreateLookup(d);
    VifCreateSkipped(d);
    VifCreateNotMethod(d);
    VifCreateTag(d);
    PassHitAt(d, ClassFunction, "VIF", vs, k, "create", 0);
    ClassHit(d, "VIF", vs, k, ClassFunction, "VIF.create");
    ClassEntries();
  }

  /** vif_create comes from Base_funcs, so it is wrapped in session_required
      alone, never in valid_vif, and tagged 'VIF.create' (lines 266-272, 281,
      1005-1015). */
  lemma VifCreateRegistered(t: map<string, Handler>, d: map<string, seq<string>>)
    requires VifDeclares(d)
    ensures "vif_create" in Build(t, d, Classes()) <==> "vif_create" in t
    ensures "vif_create" in Build(t, d, Classes()) ==>
      Build(t, d, Classes())["vif_create"] ==
        Handler(t["vif_create"].body, t["vif_create"].guards + [SessionRequired], Some("VIF.create"))
  {
    var k := "vif_create";
    VifCreateOwned(d);
    VifCreateElsewhere();
    VifCreateNotIdentity();
    OthersOutside(d, k, 5, 5);
    BuildWrapped(t, d, Classes(), k, 5, [SessionRequired], "VIF.create");
  }

  lemma VifCreateWrapped(t: map<string, Handler>)
    ensures "vif_create" in Built(t) <==> "vif_create" in t
    ensures "vif_create" in Built(t) ==>
      Built(t)["vif_create"] ==
        Handler(t["vif_create"].body, t["vif_create"].guards + [SessionRequired], Some("VIF.create"))
  {
    VifDeclared();
    VifCreateRegistered(t, ClassAttributes());
  }
}
