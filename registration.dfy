/**
 * The registration pass of XendAPI.__init__ (XendAPI.py lines 188-281),
 * stated as functions on the handler table: the naming convention, the
 * registrations a class declaration produces, the wrapping of one handler,
 * the identity handlers, and the whole pass. The imperative pass itself is
 * ApiClass.Init in module Api, proved equal to Build.
 */
module Registration {
  import opened Wrappers
  import opened Guards
  import opened Handlers

  /** str.lower() on one character of the ASCII names the class declares. */
  function LowerChar(c: char): char
  {
    if 'A' <= c <= 'Z' then (c as int - 'A' as int + 'a' as int) as char else c
  }

  /** str.lower(). */
  function Lower(s: string): (r: string)
    ensures |r| == |s|
    ensures forall i :: 0 <= i < |s| ==> r[i] == LowerChar(s[i])
  {
    if s == [] then [] else [LowerChar(s[0])] + Lower(s[1..])
  }

  /** The four passes of __init__: readable attributes, writable attributes,
      instance methods and class functions. */
  datatype Kind = Getter | Setter | Method | ClassFunction

  /** The handler name a pass looks up: '%s_get_%s', '%s_set_%s' or '%s_%s'
      of the lower-cased class and member names. */
  function Key(kind: Kind, cls: string, name: string): string
  {
    match kind
    case Getter => Lower(cls) + "_get_" + Lower(name)
    case Setter => Lower(cls) + "_set_" + Lower(name)
    case Method => Lower(cls) + "_" + Lower(name)
    case ClassFunction => Lower(cls) + "_" + Lower(name)
  }

  /** The api tag a pass attaches: '%s.get_%s', '%s.set_%s' or '%s.%s' of the
      names as declared, case kept. */
  function ApiName(kind: Kind, cls: string, name: string): string
  {
    match kind
    case Getter => cls + ".get_" + name
    case Setter => cls + ".set_" + name
    case Method => cls + "." + name
    case ClassFunction => cls + "." + name
  }

  /** Every '.' of a name turned into '_'. */
  function Underscored(s: string): (r: string)
    ensures |r| == |s|
    ensures forall i :: 0 <= i < |s| ==> r[i] == (if s[i] == '.' then '_' else s[i])
  {
    if s == [] then [] else [if s[0] == '.' then '_' else s[0]] + Underscored(s[1..])
  }

  /** The two halves of the naming convention agree: the name looked up is
      the api tag, lower-cased, with its dot replaced by an underscore. */
  lemma KeyIsFoldedApiName(kind: Kind, cls: string, name: string)
    requires '.' !in cls && '.' !in name
    ensures Key(kind, cls, name) == Underscored(Lower(ApiName(kind, cls, name)))
  {
    match kind
    case Getter => FoldJoin(cls, ".get_", "_get_", name);
    case Setter => FoldJoin(cls, ".set_", "_set_", name);
    case Method => FoldJoin(cls, ".", "_", name);
    case ClassFunction => FoldJoin(cls, ".", "_", name);
  }

  /** Folding cls + sep + name, where only the separator holds a dot. */
  lemma FoldJoin(cls: string, sep: string, folded: string, name: string)
    requires '.' !in cls && '.' !in name
    requires |sep| == |folded|
    requires forall j :: 0 <= j < |sep| ==> folded[j] == (if sep[j] == '.' then '_' else LowerChar(sep[j]))
    ensures Underscored(Lower(cls + sep + name)) == Lower(cls) + folded + Lower(name)
  {
    var s := cls + sep + name;
    var l, r := Underscored(Lower(s)), Lower(cls) + folded + Lower(name);
    assert |l| == |r|;
    forall i | 0 <= i < |l|
      ensures l[i] == r[i]
    {
      if i < |cls| {
        assert s[i] == cls[i] && r[i] == Lower(cls)[i];
      } else if i < |cls| + |sep| {
        assert s[i] == sep[i - |cls|] && r[i] == folded[i - |cls|];
      } else {
        assert s[i] == name[i - |cls| - |sep|] && r[i] == Lower(name)[i - |cls| - |sep|];
      }
    }
  }

  /** One handler to wrap: the name looked up, the validators folded around
      it in this order, and the api tag it then receives. */
  datatype Registration = Registration(key: string, chain: seq<Guard>, api: string)

  /** The registration of one declared member. */
  function Registered(kind: Kind, cls: string, chain: seq<Guard>, name: string): Registration
  {
    Registration(Key(kind, cls, name), chain, ApiName(kind, cls, name))
  }

  /** One pass over a declaration list: one registration per name, in order. */
  function Registrations(kind: Kind, cls: string, chain: seq<Guard>, names: seq<string>): (rs: seq<Registration>)
    ensures |rs| == |names|
    ensures forall i :: 0 <= i < |names| ==> rs[i] == Registered(kind, cls, chain, names[i])
  {
    if names == [] then []
    else Registrations(kind, cls, chain, names[..|names| - 1]) + [Registered(kind, cls, chain, names[|names| - 1])]
  }

  /** The declarations shared by every class (lines 278-281). */
  const BaseAttrRo: seq<string> := ["uuid"]
  const BaseAttrRw: seq<string> := []
  const BaseMethods: seq<string> := ["destroy", "to_XML", "get_record"]
  const BaseFuncs: seq<string> := ["create", "get_by_uuid", "get_all"]

  /** getattr(self, name, []): a declaration list, empty when not declared. */
  function Declared(decls: map<string, seq<string>>, name: string): seq<string>
  {
    if name in decls then decls[name] else []
  }

  /** The four lists a class pass walks (lines 225-228, 231, 243, 255, 267). */
  function ReadableOf(decls: map<string, seq<string>>, cls: string): seq<string>
  {
    Declared(decls, cls + "_attr_ro") + Declared(decls, cls + "_attr_rw") + BaseAttrRo
  }

  function WritableOf(decls: map<string, seq<string>>, cls: string): seq<string>
  {
    Declared(decls, cls + "_attr_rw") + BaseAttrRw
  }

  function MethodsOf(decls: map<string, seq<string>>, cls: string): seq<string>
  {
    Declared(decls, cls + "_methods") + BaseMethods
  }

  function FunctionsOf(decls: map<string, seq<string>>, cls: string): seq<string>
  {
    Declared(decls, cls + "_funcs") + BaseFuncs
  }

  /** Everything one class pass registers, in the order __init__ does it.
      Class functions get session_required alone (line 271). */
  function ClassRegistrations(decls: map<string, seq<string>>, cls: string, validators: seq<Guard>): seq<Registration>
  {
    Registrations(Getter, cls, validators, ReadableOf(decls, cls))
    + Registrations(Setter, cls, validators, WritableOf(decls, cls))
    + Registrations(Method, cls, validators, MethodsOf(decls, cls))
    + Registrations(ClassFunction, cls, [SessionRequired], FunctionsOf(decls, cls))
  }

  /** Everything the wrapping loop registers, class after class. */
  function AllRegistrations(decls: map<string, seq<string>>, classes: seq<(string, seq<Guard>)>): seq<Registration>
  {
    if classes == [] then []
    else
      var last := classes[|classes| - 1];
      AllRegistrations(decls, classes[..|classes| - 1]) + ClassRegistrations(decls, last.0, last.1)
  }

  /** What a class pass registers and with which validators: every readable
      and every writable attribute gets a getter (so read-write attributes
      are readable too), writable ones a setter, methods the class chain,
      and class functions session_required only, never a reference guard. */
  lemma ClassCoverage(decls: map<string, seq<string>>, cls: string, validators: seq<Guard>, r: Registration)
    ensures r in ClassRegistrations(decls, cls, validators) <==>
      || (exists a :: a in ReadableOf(decls, cls) && r == Registered(Getter, cls, validators, a))
      || (exists a :: a in WritableOf(decls, cls) && r == Registered(Setter, cls, validators, a))
      || (exists m :: m in MethodsOf(decls, cls) && r == Registered(Method, cls, validators, m))
      || (exists f :: f in FunctionsOf(decls, cls) && r == Registered(ClassFunction, cls, [SessionRequired], f))
    ensures r in ClassRegistrations(decls, cls, validators) ==>
      r.chain == validators || r.chain == [SessionRequired]
  {
    RegistrationsHold(Getter, cls, validators, ReadableOf(decls, cls), r);
    RegistrationsHold(Setter, cls, validators, WritableOf(decls, cls), r);
    RegistrationsHold(Method, cls, validators, MethodsOf(decls, cls), r);
    RegistrationsHold(ClassFunction, cls, [SessionRequired], FunctionsOf(decls, cls), r);
  }

  /** A registration belongs to one pass exactly when it is the registration
      of one of the pass's names. */
  lemma RegistrationsHold(kind: Kind, cls: string, chain: seq<Guard>, names: seq<string>, r: Registration)
    ensures r in Registrations(kind, cls, chain, names) <==>
      exists n :: n in names && r == Registered(kind, cls, chain, n)
  {
    var rs := Registrations(kind, cls, chain, names);
    if r in rs {
      var i :| 0 <= i < |rs| && rs[i] == r;
      assert names[i] in names;
    }
    if exists n :: n in names && r == Registered(kind, cls, chain, n) {
      var n :| n in names && r == Registered(kind, cls, chain, n);
      var i :| 0 <= i < |names| && names[i] == n;
      assert rs[i] == r;
    }
  }

  /** One step of the pass: look the handler up; when it exists, fold the
      chain around it (each validator wrapping the previous result, so the
      last one ends up outermost) and tag it; when it does not, the pass
      logs and moves on. Either way no other entry changes. */
  function Wrap(t: map<string, Handler>, r: Registration): (t': map<string, Handler>)
    ensures t'.Keys == t.Keys
    ensures r.key in t ==> t'[r.key] == Handler(t[r.key].body, t[r.key].guards + r.chain, Some(r.api))
    ensures forall k :: k in t && k != r.key ==> t'[k] == t[k]
  {
    if r.key in t then t[r.key := Handler(t[r.key].body, t[r.key].guards + r.chain, Some(r.api))] else t
  }

  /** Registrations applied one after another. */
  function Apply(t: map<string, Handler>, regs: seq<Registration>): map<string, Handler>
  {
    if regs == [] then t else Wrap(Apply(t, regs[..|regs| - 1]), regs[|regs| - 1])
  }

  /** The chains of the registrations naming k, concatenated in order. */
  function ChainFor(regs: seq<Registration>, k: string): seq<Guard>
  {
    if regs == [] then []
    else
      var last := regs[|regs| - 1];
      ChainFor(regs[..|regs| - 1], k) + (if last.key == k then last.chain else [])
  }

  /** The api tag of the last registration naming k, or the given one. */
  function ApiFor(regs: seq<Registration>, k: string, current: Option<string>): Option<string>
  {
    if regs == [] then current
    else
      var last := regs[|regs| - 1];
      if last.key == k then Some(last.api) else ApiFor(regs[..|regs| - 1], k, current)
  }

  /** Applying registrations adds no name and removes none; the body of each
      entry is kept, the guards of every registration naming it are stacked
      on it in order (outermost last), and it ends with the tag of the last
      one. An entry no registration names is left exactly as it was. */
  lemma {:induction false} ApplyAt(t: map<string, Handler>, regs: seq<Registration>, k: string)
    ensures k in Apply(t, regs) <==> k in t
    ensures k in t ==>
      Apply(t, regs)[k] == Handler(t[k].body, t[k].guards + ChainFor(regs, k), ApiFor(regs, k, t[k].api))
  {
    if regs != [] {
      var prefix, last := regs[..|regs| - 1], regs[|regs| - 1];
      ApplyAt(t, prefix, k);
      if k in t {
        var before := Apply(t, prefix);
        assert before[k].guards == t[k].guards + ChainFor(prefix, k);
        if last.key == k {
          assert Apply(t, regs)[k].guards == (t[k].guards + ChainFor(prefix, k)) + last.chain;
        }
      }
    }
  }

  /** Chains over registrations done in two stretches. */
  lemma {:induction false} ChainForConcat(a: seq<Registration>, b: seq<Registration>, k: string)
    ensures ChainFor(a + b, k) == ChainFor(a, k) + ChainFor(b, k)
    ensures forall current :: ApiFor(a + b, k, current) == ApiFor(b, k, ApiFor(a, k, current))
  {
    if b == [] {
      assert a + b == a;
    } else {
      var prefix, last := b[..|b| - 1], b[|b| - 1];
      assert (a + b)[..|a + b| - 1] == a + prefix;
      ChainForConcat(a, prefix, k);
    }
  }

  /** Registrations applied in two stretches. */
  lemma {:induction false} ApplyConcat(t: map<string, Handler>, a: seq<Registration>, b: seq<Registration>)
    ensures Apply(t, a + b) == Apply(Apply(t, a), b)
  {
    if b == [] {
      assert a + b == a;
    } else {
      assert (a + b)[..|a + b| - 1] == a + b[..|b| - 1];
      ApplyConcat(t, a, b[..|b| - 1]);
    }
  }

  /** One more name of a pass: its registration is applied last. */
  lemma RegistrationsStep(t: map<string, Handler>, kind: Kind, cls: string, chain: seq<Guard>, names: seq<string>, j: nat)
    requires j < |names|
    ensures Apply(t, Registrations(kind, cls, chain, names[..j + 1])) ==
      Wrap(Apply(t, Registrations(kind, cls, chain, names[..j])), Registered(kind, cls, chain, names[j]))
  {
    assert names[..j + 1][..j] == names[..j];
  }

  /** A class's registrations applied pass after pass. */
  lemma ClassPasses(t: map<string, Handler>, decls: map<string, seq<string>>, cls: string, validators: seq<Guard>)
    ensures Apply(t, ClassRegistrations(decls, cls, validators)) ==
      Apply(Apply(Apply(Apply(t,
        Registrations(Getter, cls, validators, ReadableOf(decls, cls))),
        Registrations(Setter, cls, validators, WritableOf(decls, cls))),
        Registrations(Method, cls, validators, MethodsOf(decls, cls))),
        Registrations(ClassFunction, cls, [SessionRequired], FunctionsOf(decls, cls)))
  {
    var g := Registrations(Getter, cls, validators, ReadableOf(decls, cls));
    var s := Registrations(Setter, cls, validators, WritableOf(decls, cls));
    var m := Registrations(Method, cls, validators, MethodsOf(decls, cls));
    var f := Registrations(ClassFunction, cls, [SessionRequired], FunctionsOf(decls, cls));
    ApplyConcat(t, g + s + m, f);
    ApplyConcat(t, g + s, m);
    ApplyConcat(t, g, s);
  }

  /** The four passes of a class, run one after another, leave the table
      the class's registrations leave. */
  lemma ClassStages(t0: map<string, Handler>, t1: map<string, Handler>, t2: map<string, Handler>,
                    t3: map<string, Handler>, t4: map<string, Handler>,
                    decls: map<string, seq<string>>, cls: string, validators: seq<Guard>)
    requires t1 == Apply(t0, Registrations(Getter, cls, validators, ReadableOf(decls, cls)))
    requires t2 == Apply(t1, Registrations(Setter, cls, validators, WritableOf(decls, cls)))
    requires t3 == Apply(t2, Registrations(Method, cls, validators, MethodsOf(decls, cls)))
    requires t4 == Apply(t3, Registrations(ClassFunction, cls, [SessionRequired], FunctionsOf(decls, cls)))
    ensures t4 == Apply(t0, ClassRegistrations(decls, cls, validators))
  {
    ClassPasses(t0, decls, cls, validators);
  }

  /** No registration of regs names k. */
  predicate Misses(regs: seq<Registration>, k: string)
  {
    forall i :: 0 <= i < |regs| ==> regs[i].key != k
  }

  /** Registrations that never name k leave k's entry alone. */
  lemma {:induction false} ChainForMissed(regs: seq<Registration>, k: string)
    requires Misses(regs, k)
    ensures ChainFor(regs, k) == []
    ensures forall current :: ApiFor(regs, k, current) == current
  {
    if regs != [] {
      ChainForMissed(regs[..|regs| - 1], k);
    }
  }

  /** When exactly one registration names k, k ends up with that one's
      chain and tag. */
  lemma ChainForSingle(regs: seq<Registration>, k: string, i: nat)
    requires i < |regs| && regs[i].key == k
    requires forall j :: 0 <= j < |regs| && j != i ==> regs[j].key != k
    ensures ChainFor(regs, k) == regs[i].chain
    ensures forall current :: ApiFor(regs, k, current) == Some(regs[i].api)
  {
    var before, after := regs[..i], regs[i + 1..];
    assert regs == before + [regs[i]] + after;
    ChainForMissed(before, k);
    ChainForMissed(after, k);
    ChainForConcat(before, [regs[i]], k);
    ChainForConcat(before + [regs[i]], after, k);
    assert ChainFor([regs[i]], k) == regs[i].chain by {
      assert [regs[i]][..0] == [];
    }
  }

  /** A first stretch that never names k does not matter to k. */
  lemma ChainForAfter(a: seq<Registration>, b: seq<Registration>, k: string)
    requires Misses(a, k)
    ensures ChainFor(a + b, k) == ChainFor(b, k)
    ensures forall current :: ApiFor(a + b, k, current) == ApiFor(b, k, current)
  {
    ChainForConcat(a, b, k);
    ChainForMissed(a, k);
  }

  /** Nor does a second stretch that never names k. */
  lemma ChainForBefore(a: seq<Registration>, b: seq<Registration>, k: string)
    requires Misses(b, k)
    ensures ChainFor(a + b, k) == ChainFor(a, k)
    ensures forall current :: ApiFor(a + b, k, current) == ApiFor(a, k, current)
  {
    ChainForConcat(a, b, k);
    ChainForMissed(b, k);
  }

  /** Misses over two stretches. */
  lemma MissesConcat(a: seq<Registration>, b: seq<Registration>, k: string)
    ensures Misses(a + b, k) <==> Misses(a, k) && Misses(b, k)
  {
    if Misses(a, k) && Misses(b, k) {
      forall i | 0 <= i < |a + b| ensures (a + b)[i].key != k {
        if i >= |a| { assert (a + b)[i] == b[i - |a|]; }
      }
    }
    if Misses(a + b, k) {
      forall i | 0 <= i < |a| ensures a[i].key != k {
        assert (a + b)[i] == a[i];
      }
      forall i | 0 <= i < |b| ensures b[i].key != k {
        assert (a + b)[|a| + i] == b[i];
      }
    }
  }

  /** What every name a pass looks up starts with. */
  function Prefix(kind: Kind, cls: string): string
  {
    Lower(cls) + (if kind == Getter then "_get_" else if kind == Setter then "_set_" else "_")
  }

  /** A pass looks up nothing outside its prefix. */
  lemma PassMissesByPrefix(kind: Kind, cls: string, chain: seq<Guard>, names: seq<string>, k: string)
    requires !(Prefix(kind, cls) <= k)
    ensures Misses(Registrations(kind, cls, chain, names), k)
  {
    forall i | 0 <= i < |names|
      ensures Key(kind, cls, names[i]) != k
    {
      assert Key(kind, cls, names[i]) == Prefix(kind, cls) + Lower(names[i]);
    }
  }

  /** A pass of another class looks up nothing of k's. */
  lemma PassMissesOutsideClass(kind: Kind, cls: string, chain: seq<Guard>, names: seq<string>, k: string)
    requires !(Lower(cls) + "_" <= k)
    ensures Misses(Registrations(kind, cls, chain, names), k)
  {
    PrefixExtends(cls, kind, k);
    PassMissesByPrefix(kind, cls, chain, names, k);
  }

  /** Every pass prefix extends lower(cls) + "_". */
  lemma PrefixExtends(cls: string, kind: Kind, k: string)
    requires !(Lower(cls) + "_" <= k)
    ensures !(Prefix(kind, cls) <= k)
  {
    var p := Prefix(kind, cls);
    var q := Lower(cls) + "_";
    assert q <= p by {
      assert p[..|q|] == q;
    }
  }

  /** A class pass looks up nothing outside lower(cls) + "_". */
  lemma ClassMissesByPrefix(decls: map<string, seq<string>>, cls: string, validators: seq<Guard>, k: string)
    requires !(Lower(cls) + "_" <= k)
    ensures Misses(ClassRegistrations(decls, cls, validators), k)
  {
    var g := Registrations(Getter, cls, validators, ReadableOf(decls, cls));
    var s := Registrations(Setter, cls, validators, WritableOf(decls, cls));
    var m := Registrations(Method, cls, validators, MethodsOf(decls, cls));
    var f := Registrations(ClassFunction, cls, [SessionRequired], FunctionsOf(decls, cls));
    PassMissesOutsideClass(Getter, cls, validators, ReadableOf(decls, cls), k);
    PassMissesOutsideClass(Setter, cls, validators, WritableOf(decls, cls), k);
    PassMissesOutsideClass(Method, cls, validators, MethodsOf(decls, cls), k);
    PassMissesOutsideClass(ClassFunction, cls, [SessionRequired], FunctionsOf(decls, cls), k);
    MissesOfFour(g, s, m, f, k);
  }

  lemma MissesOfFour(g: seq<Registration>, s: seq<Registration>, m: seq<Registration>, f: seq<Registration>, k: string)
    requires Misses(g, k) && Misses(s, k) && Misses(m, k) && Misses(f, k)
    ensures Misses(g + s + m + f, k)
  {
    MissesConcat(g, s, k);
    MissesConcat(g + s, m, k);
    MissesConcat(g + s + m, f, k);
  }

  /** Prefix test one character at a time; on literal names the verifier
      can evaluate it. */
  predicate StartsWith(k: string, p: string)
  {
    |p| == 0 || (|k| > 0 && p[0] == k[0] && StartsWith(k[1..], p[1..]))
  }

  lemma {:induction false} StartsWithIsPrefix(k: string, p: string)
    ensures StartsWith(k, p) <==> p <= k
  {
    if |p| > 0 && |k| > 0 {
      StartsWithIsPrefix(k[1..], p[1..]);
      if p <= k {
        assert p[1..] <= k[1..];
      }
      if p[1..] <= k[1..] && p[0] == k[0] {
        assert p == [p[0]] + p[1..];
        assert k[..|p|] == [k[0]] + k[1..][..|p| - 1];
      }
    }
  }

  /** Lower(n) == t, decided one character at a time; on literal names the
      verifier can evaluate it. */
  predicate FoldsTo(n: string, t: string)
  {
    if n == [] then t == [] else |t| > 0 && LowerChar(n[0]) == t[0] && FoldsTo(n[1..], t[1..])
  }

  lemma {:induction false} FoldsToIsLower(n: string, t: string)
    ensures FoldsTo(n, t) <==> Lower(n) == t
  {
    if n != [] && |t| > 0 {
      FoldsToIsLower(n[1..], t[1..]);
      assert Lower(n) == [LowerChar(n[0])] + Lower(n[1..]);
      if Lower(n) == t {
        assert t[1..] == Lower(n)[1..];
      }
    }
  }

  /** How many names fold to t, the one at index skip aside (no name is set
      aside when skip is negative). */
  function Hits(names: seq<string>, t: string, skip: int): nat
  {
    if names == [] then 0
    else (if skip != 0 && FoldsTo(names[0], t) then 1 else 0) + Hits(names[1..], t, skip - 1)
  }

  /** The names a pass registers under prefix + t are those folding to t. */
  lemma KeyUnderPrefix(kind: Kind, cls: string, name: string, t: string)
    ensures Key(kind, cls, name) == Prefix(kind, cls) + t <==> Lower(name) == t
  {
    assert Key(kind, cls, name) == Prefix(kind, cls) + Lower(name);
    if Key(kind, cls, name) == Prefix(kind, cls) + t {
      assert Lower(name) == (Prefix(kind, cls) + t)[|Prefix(kind, cls)|..];
    }
  }

  /** No hit: no name folds to t, save possibly the one set aside. */
  lemma {:induction false} HitsNone(names: seq<string>, t: string, skip: int)
    requires Hits(names, t, skip) == 0
    ensures forall j :: 0 <= j < |names| && j != skip ==> Lower(names[j]) != t
  {
    if names != [] {
      FoldsToIsLower(names[0], t);
      HitsNone(names[1..], t, skip - 1);
      assert forall j :: 1 <= j < |names| ==> names[j] == names[1..][j - 1];
    }
  }

  /** A pass none of whose names folds to the rest of k leaves k alone. */
  lemma PassMiss(kind: Kind, cls: string, chain: seq<Guard>, names: seq<string>, k: string, t: string)
    requires k == Prefix(kind, cls) + t && Hits(names, t, -1) == 0
    ensures Misses(Registrations(kind, cls, chain, names), k)
    ensures ChainFor(Registrations(kind, cls, chain, names), k) == []
    ensures forall current :: ApiFor(Registrations(kind, cls, chain, names), k, current) == current
  {
    HitsNone(names, t, -1);
    forall j | 0 <= j < |names|
      ensures Key(kind, cls, names[j]) != k
    {
      KeyUnderPrefix(kind, cls, names[j], t);
    }
    ChainForMissed(Registrations(kind, cls, chain, names), k);
  }

  /** A pass outside k's prefix leaves k alone. */
  lemma PassOutside(kind: Kind, cls: string, chain: seq<Guard>, names: seq<string>, k: string)
    requires !StartsWith(k, Prefix(kind, cls))
    ensures Misses(Registrations(kind, cls, chain, names), k)
    ensures ChainFor(Registrations(kind, cls, chain, names), k) == []
    ensures forall current :: ApiFor(Registrations(kind, cls, chain, names), k, current) == current
  {
    StartsWithIsPrefix(k, Prefix(kind, cls));
    PassMissesByPrefix(kind, cls, chain, names, k);
    ChainForMissed(Registrations(kind, cls, chain, names), k);
  }

  /** A pass exactly one of whose names, the one at i, folds to the rest of
      k wraps k once with the pass chain and tags it with that name. */
  lemma PassHit(kind: Kind, cls: string, chain: seq<Guard>, names: seq<string>, k: string, t: string, i: nat)
    requires k == Prefix(kind, cls) + t && i < |names| && FoldsTo(names[i], t) && Hits(names, t, i) == 0
    ensures ChainFor(Registrations(kind, cls, chain, names), k) == chain
    ensures forall current :: ApiFor(Registrations(kind, cls, chain, names), k, current) == Some(ApiName(kind, cls, names[i]))
  {
    FoldsToIsLower(names[i], t);
    HitsNone(names, t, i);
    forall j | 0 <= j < |names|
      ensures Key(kind, cls, names[j]) == k <==> j == i
    {
      KeyUnderPrefix(kind, cls, names[j], t);
    }
    ChainForSingle(Registrations(kind, cls, chain, names), k, i);
  }

  /** A class's chain for k is its four passes' chains in pass order, and
      its tag for k the last tag those passes give. */
  lemma ClassChain(decls: map<string, seq<string>>, cls: string, validators: seq<Guard>, k: string)
    ensures
      var g := PassRegistrations(decls, Getter, cls, validators);
      var s := PassRegistrations(decls, Setter, cls, validators);
      var m := PassRegistrations(decls, Method, cls, validators);
      var f := PassRegistrations(decls, ClassFunction, cls, validators);
      && ChainFor(ClassRegistrations(decls, cls, validators), k) == ChainFor(g, k) + ChainFor(s, k) + ChainFor(m, k) + ChainFor(f, k)
      && forall current :: ApiFor(ClassRegistrations(decls, cls, validators), k, current) ==
           ApiFor(f, k, ApiFor(m, k, ApiFor(s, k, ApiFor(g, k, current))))
  {
    var g := PassRegistrations(decls, Getter, cls, validators);
    var s := PassRegistrations(decls, Setter, cls, validators);
    var m := PassRegistrations(decls, Method, cls, validators);
    var f := PassRegistrations(decls, ClassFunction, cls, validators);
    assert ClassRegistrations(decls, cls, validators) == g + s + m + f;
    ChainForConcat(g + s + m, f, k);
    ChainForConcat(g + s, m, k);
    ChainForConcat(g, s, k);
  }

  /** The declaration list a pass walks. */
  function PassNames(decls: map<string, seq<string>>, kind: Kind, cls: string): seq<string>
  {
    match kind
    case Getter => ReadableOf(decls, cls)
    case Setter => WritableOf(decls, cls)
    case Method => MethodsOf(decls, cls)
    case ClassFunction => FunctionsOf(decls, cls)
  }

  /** The validators a pass folds: the class's own, or session_required
      alone for class functions (line 271). */
  function PassChain(kind: Kind, validators: seq<Guard>): seq<Guard>
  {
    if kind == ClassFunction then [SessionRequired] else validators
  }

  /** The registrations of one pass of a class. */
  function PassRegistrations(decls: map<string, seq<string>>, kind: Kind, cls: string, validators: seq<Guard>): seq<Registration>
  {
    Registrations(kind, cls, PassChain(kind, validators), PassNames(decls, kind, cls))
  }

  /** A pass looks k up under no declared name: k lies outside its prefix,
      or no declared name folds to the rest of k. */
  predicate Skips(decls: map<string, seq<string>>, kind: Kind, cls: string, k: string)
  {
    var p := Prefix(kind, cls);
    !StartsWith(k, p) || (|p| <= |k| && Hits(PassNames(decls, kind, cls), k[|p|..], -1) == 0)
  }

  /** A pass looks k, which is its prefix followed by t, up under exactly
      one declared name, the one at i. */
  predicate HitsAt(decls: map<string, seq<string>>, kind: Kind, cls: string, k: string, t: string, i: nat)
  {
    var names := PassNames(decls, kind, cls);
    k == Prefix(kind, cls) + t && i < |names| && FoldsTo(names[i], t) && Hits(names, t, i) == 0
  }

  lemma PassSkipped(decls: map<string, seq<string>>, kind: Kind, cls: string, validators: seq<Guard>, k: string)
    requires Skips(decls, kind, cls, k)
    ensures Misses(PassRegistrations(decls, kind, cls, validators), k)
    ensures ChainFor(PassRegistrations(decls, kind, cls, validators), k) == []
    ensures forall current :: ApiFor(PassRegistrations(decls, kind, cls, validators), k, current) == current
  {
    var p, names, chain := Prefix(kind, cls), PassNames(decls, kind, cls), PassChain(kind, validators);
    if !StartsWith(k, p) {
      PassOutside(kind, cls, chain, names, k);
    } else {
      StartsWithIsPrefix(k, p);
      assert k == p + k[|p|..];
      PassMiss(kind, cls, chain, names, k, k[|p|..]);
    }
  }

  lemma PassHitAt(decls: map<string, seq<string>>, kind: Kind, cls: string, validators: seq<Guard>, k: string, t: string, i: nat)
    requires HitsAt(decls, kind, cls, k, t, i)
    ensures ChainFor(PassRegistrations(decls, kind, cls, validators), k) == PassChain(kind, validators)
    ensures forall current ::
      ApiFor(PassRegistrations(decls, kind, cls, validators), k, current) == Some(ApiName(kind, cls, PassNames(decls, kind, cls)[i]))
  {
    PassHit(kind, cls, PassChain(kind, validators), PassNames(decls, kind, cls), k, t, i);
  }

  /** A class none of whose four passes looks k up registers nothing under k. */
  lemma ClassSkips(decls: map<string, seq<string>>, cls: string, validators: seq<Guard>, k: string)
    requires Skips(decls, Getter, cls, k) && Skips(decls, Setter, cls, k)
    requires Skips(decls, Method, cls, k) && Skips(decls, ClassFunction, cls, k)
    ensures Misses(ClassRegistrations(decls, cls, validators), k)
  {
    PassSkipped(decls, Getter, cls, validators, k);
    PassSkipped(decls, Setter, cls, validators, k);
    PassSkipped(decls, Method, cls, validators, k);
    PassSkipped(decls, ClassFunction, cls, validators, k);
    MissesOfFour(PassRegistrations(decls, Getter, cls, validators), PassRegistrations(decls, Setter, cls, validators),
                 PassRegistrations(decls, Method, cls, validators), PassRegistrations(decls, ClassFunction, cls, validators), k);
  }

  /** A class one of whose passes wraps k with its chain and tags it, the
      other three skipping k, wraps k once with that chain and that tag. */
  lemma ClassHit(decls: map<string, seq<string>>, cls: string, validators: seq<Guard>, k: string, kind: Kind, api: string)
    requires ChainFor(PassRegistrations(decls, kind, cls, validators), k) == PassChain(kind, validators)
    requires forall current :: ApiFor(PassRegistrations(decls, kind, cls, validators), k, current) == Some(api)
    requires kind == Getter || Skips(decls, Getter, cls, k)
    requires kind == Setter || Skips(decls, Setter, cls, k)
    requires kind == Method || Skips(decls, Method, cls, k)
    requires kind == ClassFunction || Skips(decls, ClassFunction, cls, k)
    ensures ChainFor(ClassRegistrations(decls, cls, validators), k) == PassChain(kind, validators)
    ensures forall current :: ApiFor(ClassRegistrations(decls, cls, validators), k, current) == Some(api)
  {
    OthersSkipped(decls, cls, validators, k, kind);
    ClassOfPasses(decls, cls, validators, k, kind, api);
  }

  /** The passes other than kind, each skipping k, leave k alone. */
  lemma OthersSkipped(decls: map<string, seq<string>>, cls: string, validators: seq<Guard>, k: string, kind: Kind)
    requires kind == Getter || Skips(decls, Getter, cls, k)
    requires kind == Setter || Skips(decls, Setter, cls, k)
    requires kind == Method || Skips(decls, Method, cls, k)
    requires kind == ClassFunction || Skips(decls, ClassFunction, cls, k)
    ensures kind == Getter || LeftAlone(decls, Getter, cls, validators, k)
    ensures kind == Setter || LeftAlone(decls, Setter, cls, validators, k)
    ensures kind == Method || LeftAlone(decls, Method, cls, validators, k)
    ensures kind == ClassFunction || LeftAlone(decls, ClassFunction, cls, validators, k)
  {
    SkippedUnless(decls, Getter, kind, cls, validators, k);
    SkippedUnless(decls, Setter, kind, cls, validators, k);
    SkippedUnless(decls, Method, kind, cls, validators, k);
    SkippedUnless(decls, ClassFunction, kind, cls, validators, k);
  }

  lemma SkippedUnless(decls: map<string, seq<string>>, pass: Kind, kind: Kind, cls: string, validators: seq<Guard>, k: string)
    requires kind == pass || Skips(decls, pass, cls, k)
    ensures kind == pass || LeftAlone(decls, pass, cls, validators, k)
  {
    if kind != pass { PassSkipped(decls, pass, cls, validators, k); }
  }

  /** A pass that neither wraps nor retags k. */
  ghost predicate LeftAlone(decls: map<string, seq<string>>, kind: Kind, cls: string, validators: seq<Guard>, k: string)
  {
    Inert(PassRegistrations(decls, kind, cls, validators), k)
  }

  /** Class-level chain and tag when one pass supplies them and the other
      three leave k alone. */
  lemma ClassOfPasses(decls: map<string, seq<string>>, cls: string, validators: seq<Guard>, k: string, kind: Kind, api: string)
    requires ChainFor(PassRegistrations(decls, kind, cls, validators), k) == PassChain(kind, validators)
    requires forall current :: ApiFor(PassRegistrations(decls, kind, cls, validators), k, current) == Some(api)
    requires kind == Getter || LeftAlone(decls, Getter, cls, validators, k)
    requires kind == Setter || LeftAlone(decls, Setter, cls, validators, k)
    requires kind == Method || LeftAlone(decls, Method, cls, validators, k)
    requires kind == ClassFunction || LeftAlone(decls, ClassFunction, cls, validators, k)
    ensures ChainFor(ClassRegistrations(decls, cls, validators), k) == PassChain(kind, validators)
    ensures forall current :: ApiFor(ClassRegistrations(decls, cls, validators), k, current) == Some(api)
  {
    var g, s := PassRegistrations(decls, Getter, cls, validators), PassRegistrations(decls, Setter, cls, validators);
    var m, f := PassRegistrations(decls, Method, cls, validators), PassRegistrations(decls, ClassFunction, cls, validators);
    var chain := PassChain(kind, validators);
    ClassChain(decls, cls, validators, k);
    OneOfFour(g, s, m, f, k, kind == Getter, kind == Setter, kind == Method, kind == ClassFunction, chain, api);
  }

  /** Registrations that neither wrap nor retag k. */
  ghost predicate Inert(regs: seq<Registration>, k: string)
  {
    ChainFor(regs, k) == [] && forall current :: ApiFor(regs, k, current) == current
  }

  /** Registrations that wrap k with chain and tag it api. */
  ghost predicate Supplies(regs: seq<Registration>, k: string, chain: seq<Guard>, api: string)
  {
    ChainFor(regs, k) == chain && forall current :: ApiFor(regs, k, current) == Some(api)
  }

  /** One of four passes in a row, either supplying k's chain and tag or
      leaving k alone. */
  lemma Stage(regs: seq<Registration>, k: string, hit: bool, chain: seq<Guard>, api: string, current: Option<string>)
    requires if hit then Supplies(regs, k, chain, api) else Inert(regs, k)
    ensures ChainFor(regs, k) == if hit then chain else []
    ensures ApiFor(regs, k, current) == if hit then Some(api) else current
  {
  }

  /** Four passes run in order, of which exactly one touches k: k gets that
      pass's chain and tag. */
  lemma OneOfFour(g: seq<Registration>, s: seq<Registration>, m: seq<Registration>, f: seq<Registration>,
                  k: string, hg: bool, hs: bool, hm: bool, hf: bool, chain: seq<Guard>, api: string)
    requires (hg && !hs && !hm && !hf) || (!hg && hs && !hm && !hf) || (!hg && !hs && hm && !hf) || (!hg && !hs && !hm && hf)
    requires if hg then Supplies(g, k, chain, api) else Inert(g, k)
    requires if hs then Supplies(s, k, chain, api) else Inert(s, k)
    requires if hm then Supplies(m, k, chain, api) else Inert(m, k)
    requires if hf then Supplies(f, k, chain, api) else Inert(f, k)
    ensures ChainFor(g, k) + ChainFor(s, k) + ChainFor(m, k) + ChainFor(f, k) == chain
    ensures forall current :: ApiFor(f, k, ApiFor(m, k, ApiFor(s, k, ApiFor(g, k, current)))) == Some(api)
  {
    forall current
      ensures ApiFor(f, k, ApiFor(m, k, ApiFor(s, k, ApiFor(g, k, current)))) == Some(api)
    {
      var a1 := ApiFor(g, k, current);
      Stage(g, k, hg, chain, api, current);
      var a2 := ApiFor(s, k, a1);
      Stage(s, k, hs, chain, api, a1);
      var a3 := ApiFor(m, k, a2);
      Stage(m, k, hm, chain, api, a2);
      Stage(f, k, hf, chain, api, a3);
    }
    var cg, cs, cm, cf := ChainFor(g, k), ChainFor(s, k), ChainFor(m, k), ChainFor(f, k);
    if hg { assert cs == cm == cf == [] && cg + cs + cm + cf == cg; }
    else if hs { assert cg == cm == cf == [] && cg + cs + cm + cf == cs; }
    else if hm { assert cg == cs == cf == [] && cg + cs + cm + cf == cm; }
    else { assert cg == cs == cm == [] && cg + cs + cm + cf == cf; }
  }

  lemma AllRegistrationsLast(decls: map<string, seq<string>>, classes: seq<(string, seq<Guard>)>)
    requires classes != []
    ensures
      var n := |classes| - 1;
      AllRegistrations(decls, classes) == AllRegistrations(decls, classes[..n]) + ClassRegistrations(decls, classes[n].0, classes[n].1)
  {
  }

  /** No class of classes registers k, save possibly the one at index i. */
  predicate MissedExcept(decls: map<string, seq<string>>, classes: seq<(string, seq<Guard>)>, i: int, k: string)
    decreases |classes|
  {
    if classes == [] then true
    else
      var n := |classes| - 1;
      && (n == i || Misses(ClassRegistrations(decls, classes[n].0, classes[n].1), k))
      && MissedExcept(decls, classes[..n], i, k)
  }

  lemma {:induction false} MissedExceptEach(decls: map<string, seq<string>>, classes: seq<(string, seq<Guard>)>, i: int, k: string)
    requires forall j :: 0 <= j < |classes| && j != i ==> Misses(ClassRegistrations(decls, classes[j].0, classes[j].1), k)
    ensures MissedExcept(decls, classes, i, k)
    decreases |classes|
  {
    if classes != [] {
      var n := |classes| - 1;
      forall j | 0 <= j < n && j != i
        ensures Misses(ClassRegistrations(decls, classes[..n][j].0, classes[..n][j].1), k)
      {
        assert classes[..n][j] == classes[j];
      }
      MissedExceptEach(decls, classes[..n], i, k);
    }
  }

  /** Classes none of which registers k register nothing under k together. */
  lemma {:induction false} AllRegistrationsMiss(decls: map<string, seq<string>>, classes: seq<(string, seq<Guard>)>, k: string)
    requires MissedExcept(decls, classes, -1, k)
    ensures Misses(AllRegistrations(decls, classes), k)
    decreases |classes|
  {
    if classes != [] {
      var n := |classes| - 1;
      AllRegistrationsMiss(decls, classes[..n], k);
      AllRegistrationsLast(decls, classes);
      MissesConcat(AllRegistrations(decls, classes[..n]), ClassRegistrations(decls, classes[n].0, classes[n].1), k);
    }
  }

  /** When only class i registers k, k's chain and tag come from that
      class's passes alone. */
  lemma {:induction false} AllRegistrationsAt(decls: map<string, seq<string>>, classes: seq<(string, seq<Guard>)>, i: nat, k: string)
    requires i < |classes| && MissedExcept(decls, classes, i, k)
    ensures ChainFor(AllRegistrations(decls, classes), k) == ChainFor(ClassRegistrations(decls, classes[i].0, classes[i].1), k)
    ensures forall current ::
      ApiFor(AllRegistrations(decls, classes), k, current) == ApiFor(ClassRegistrations(decls, classes[i].0, classes[i].1), k, current)
    decreases |classes|
  {
    var n := |classes| - 1;
    var before, last := AllRegistrations(decls, classes[..n]), ClassRegistrations(decls, classes[n].0, classes[n].1);
    AllRegistrationsLast(decls, classes);
    if i == n {
      MissedExceptNone(decls, classes[..n], i, k);
      AllRegistrationsMiss(decls, classes[..n], k);
      ChainForAfter(before, last, k);
    } else {
      assert classes[..n][i] == classes[i];
      AllRegistrationsAt(decls, classes[..n], i, k);
      ChainForBefore(before, last, k);
    }
  }

  /** An exception past the end excepts nothing. */
  lemma {:induction false} MissedExceptNone(decls: map<string, seq<string>>, classes: seq<(string, seq<Guard>)>, i: int, k: string)
    requires MissedExcept(decls, classes, i, k) && i >= |classes|
    ensures MissedExcept(decls, classes, -1, k)
    decreases |classes|
  {
    if classes != [] {
      MissedExceptNone(decls, classes[..|classes| - 1], i, k);
    }
  }

  /** The two names the "cheat methods" loop installs (lines 208-209). */
  function GetByUuidKey(cls: string): string
  {
    Lower(cls) + "_get_by_uuid"
  }

  function GetUuidKey(cls: string): string
  {
    Lower(cls) + "_get_uuid"
  }

  /** The identity lambda of lines 211 and 213: self, session, reference. */
  function IdentityHandler(): Handler
  {
    Handler(Identity, [], None)
  }

  /** The "cheat methods" loop: for every class, (re)install both identity
      handlers, overriding whatever was there. */
  function InstallIdentities(t: map<string, Handler>, classes: seq<(string, seq<Guard>)>): map<string, Handler>
  {
    if classes == [] then t
    else
      var cls := classes[|classes| - 1].0;
      InstallIdentities(t, classes[..|classes| - 1])[GetByUuidKey(cls) := IdentityHandler()][GetUuidKey(cls) := IdentityHandler()]
  }

  /** k is one of the names the cheat methods loop installs. */
  predicate IsIdentityKey(classes: seq<(string, seq<Guard>)>, k: string)
  {
    exists i :: 0 <= i < |classes| && (k == GetByUuidKey(classes[i].0) || k == GetUuidKey(classes[i].0))
  }

  /** The identity names are exactly those that the Base_funcs entry
      'get_by_uuid' and the Base_attr_ro entry 'uuid' look up, so both
      identity handlers are wrapped afterwards. */
  lemma IdentityKeysAreRegistered(cls: string)
    ensures GetByUuidKey(cls) == Key(ClassFunction, cls, "get_by_uuid")
    ensures GetUuidKey(cls) == Key(Getter, cls, "uuid")
    ensures "get_by_uuid" in BaseFuncs && "uuid" in BaseAttrRo
  {
    ByUuidKeyIsKey(cls);
    UuidKeyIsKey(cls);
  }

  lemma ByUuidKeyIsKey(cls: string)
    ensures GetByUuidKey(cls) == Key(ClassFunction, cls, "get_by_uuid")
  {
    KeyJoin(cls, "get_by_uuid");
    ByUuidLower();
    JoinByUuid(Lower(cls));
  }

  lemma ByUuidLower()
    ensures Lower("get_by_uuid") == "get_by_uuid"
  {
    LowerKeeps("get_by_uuid");
  }

  lemma JoinByUuid(x: string)
    ensures x + "_" + "get_by_uuid" == x + "_get_by_uuid"
  {
    assert x + "_" + "get_by_uuid" == x + ("_" + "get_by_uuid");
  }

  lemma UuidKeyIsKey(cls: string)
    ensures GetUuidKey(cls) == Key(Getter, cls, "uuid")
  {
    LowerKeeps("uuid");
    assert Lower(cls) + "_get_" + "uuid" == Lower(cls) + "_get_uuid";
  }

  /** The name a class function pass looks up, spelled out. */
  lemma KeyJoin(cls: string, name: string)
    ensures Key(ClassFunction, cls, name) == Lower(cls) + "_" + Lower(name)
  {
  }

  /** A name without capitals is its own lower-case form. */
  lemma LowerKeeps(s: string)
    requires forall i :: 0 <= i < |s| ==> !('A' <= s[i] <= 'Z')
    ensures Lower(s) == s
  {
    assert forall i :: 0 <= i < |s| ==> Lower(s)[i] == s[i];
  }

  /** After the cheat methods loop the table holds what it held before plus
      both identity names of every class, and those map to the identity
      handler whatever was there before. */
  lemma {:induction false} InstallIdentitiesAt(t: map<string, Handler>, classes: seq<(string, seq<Guard>)>, k: string)
    ensures k in InstallIdentities(t, classes) <==> k in t || IsIdentityKey(classes, k)
    ensures IsIdentityKey(classes, k) ==> InstallIdentities(t, classes)[k] == IdentityHandler()
    ensures !IsIdentityKey(classes, k) && k in t ==> InstallIdentities(t, classes)[k] == t[k]
  {
    if classes != [] {
      InstallIdentitiesAt(t, classes[..|classes| - 1], k);
      IdentityKeyOfLast(classes, k);
    }
  }

  /** The identity names of a class list are those of all but its last
      class, and the two of the last. */
  lemma IdentityKeyOfLast(classes: seq<(string, seq<Guard>)>, k: string)
    requires classes != []
    ensures
      var cls := classes[|classes| - 1].0;
      IsIdentityKey(classes, k) <==>
        IsIdentityKey(classes[..|classes| - 1], k) || k == GetByUuidKey(cls) || k == GetUuidKey(cls)
  {
    var prefix, cls := classes[..|classes| - 1], classes[|classes| - 1].0;
    if IsIdentityKey(prefix, k) {
      IdentityKeyOfPrefix(classes, prefix, k);
    }
    if IsIdentityKey(classes, k) && k != GetByUuidKey(cls) && k != GetUuidKey(cls) {
      IdentityKeyNotLast(classes, prefix, k);
    }
    if k == GetByUuidKey(cls) || k == GetUuidKey(cls) {
      assert IsIdentityKey(classes, k) by {
        assert classes[|classes| - 1].0 == cls;
      }
    }
  }

  lemma IdentityKeyOfPrefix(classes: seq<(string, seq<Guard>)>, prefix: seq<(string, seq<Guard>)>, k: string)
    requires prefix <= classes && IsIdentityKey(prefix, k)
    ensures IsIdentityKey(classes, k)
  {
    var i :| 0 <= i < |prefix| && (k == GetByUuidKey(prefix[i].0) || k == GetUuidKey(prefix[i].0));
    assert classes[i] == prefix[i];
  }

  lemma IdentityKeyNotLast(classes: seq<(string, seq<Guard>)>, prefix: seq<(string, seq<Guard>)>, k: string)
    requires classes != [] && prefix == classes[..|classes| - 1] && IsIdentityKey(classes, k)
    requires k != GetByUuidKey(classes[|classes| - 1].0) && k != GetUuidKey(classes[|classes| - 1].0)
    ensures IsIdentityKey(prefix, k)
  {
    var i :| 0 <= i < |classes| && (k == GetByUuidKey(classes[i].0) || k == GetUuidKey(classes[i].0));
    assert i < |prefix| && prefix[i] == classes[i];
  }

  /** Both identity names of a class lie under its prefix lower(cls) + "_". */
  lemma IdentityKeysUnderClass(cls: string, k: string)
    requires !(Lower(cls) + "_" <= k)
    ensures k != GetByUuidKey(cls) && k != GetUuidKey(cls)
  {
    var q := Lower(cls) + "_";
    assert q <= GetByUuidKey(cls) by {
      assert GetByUuidKey(cls)[..|q|] == q;
    }
    assert q <= GetUuidKey(cls) by {
      assert GetUuidKey(cls)[..|q|] == q;
    }
  }

  /** The whole of __init__: the cheat methods loop, then the wrapping loop. */
  function Build(t: map<string, Handler>, decls: map<string, seq<string>>, classes: seq<(string, seq<Guard>)>): map<string, Handler>
  {
    Apply(InstallIdentities(t, classes), AllRegistrations(decls, classes))
  }

  /** What the pass leaves under each name: a name is present exactly when it
      was defined before or is an identity name; its body is the identity
      for identity names and the original otherwise; its guards are the
      chains of every registration naming it, stacked in pass order on top
      of what it had; its tag is that of the last such registration. Names
      the declarations mention but the class does not define stay absent. */
  lemma BuildAt(t: map<string, Handler>, decls: map<string, seq<string>>, classes: seq<(string, seq<Guard>)>, k: string)
    ensures k in Build(t, decls, classes) <==> k in t || IsIdentityKey(classes, k)
    ensures k in Build(t, decls, classes) ==>
      var base := if IsIdentityKey(classes, k) then IdentityHandler() else t[k];
      var regs := AllRegistrations(decls, classes);
      Build(t, decls, classes)[k] == Handler(base.body, base.guards + ChainFor(regs, k), ApiFor(regs, k, base.api))
  {
    InstallIdentitiesAt(t, classes, k);
    ApplyAt(InstallIdentities(t, classes), AllRegistrations(decls, classes), k);
  }

  /** Class j of classes neither registers k nor installs it as an
      identity handler. */
  predicate LeavesAlone(decls: map<string, seq<string>>, classes: seq<(string, seq<Guard>)>, j: nat, k: string)
    requires j < |classes|
  {
    && Misses(ClassRegistrations(decls, classes[j].0, classes[j].1), k)
    && k != GetByUuidKey(classes[j].0) && k != GetUuidKey(classes[j].0)
  }

  /** A name every class but i leaves alone gets what class i gives it: the
      identity handler if it is one of class i's identity names and the
      original handler otherwise, wrapped in the chains class i registers
      for it and tagged as class i tags it. */
  lemma BuildOwned(t: map<string, Handler>, decls: map<string, seq<string>>, classes: seq<(string, seq<Guard>)>, k: string, i: nat)
    requires i < |classes|
    requires forall j :: 0 <= j < |classes| && j != i ==> LeavesAlone(decls, classes, j, k)
    ensures
      var identity := k == GetByUuidKey(classes[i].0) || k == GetUuidKey(classes[i].0);
      var regs := ClassRegistrations(decls, classes[i].0, classes[i].1);
      && (k in Build(t, decls, classes) <==> k in t || identity)
      && (k in Build(t, decls, classes) ==>
            var base := if identity then IdentityHandler() else t[k];
            Build(t, decls, classes)[k] == Handler(base.body, base.guards + ChainFor(regs, k), ApiFor(regs, k, base.api)))
  {
    forall j | 0 <= j < |classes| && j != i
      ensures Misses(ClassRegistrations(decls, classes[j].0, classes[j].1), k)
      ensures k != GetByUuidKey(classes[j].0) && k != GetUuidKey(classes[j].0)
    {
      assert LeavesAlone(decls, classes, j, k);
    }
    MissedExceptEach(decls, classes, i, k);
    AllRegistrationsAt(decls, classes, i, k);
    IdentityAmong(classes, k, i);
    BuildAt(t, decls, classes, k);
  }

  /** A name class i registers under chain and tag api, which is not one of
      its identity names and which no other class touches, keeps the handler
      the class defined, wrapped in chain and tagged api. */
  lemma BuildWrapped(t: map<string, Handler>, decls: map<string, seq<string>>, classes: seq<(string, seq<Guard>)>,
                     k: string, i: nat, chain: seq<Guard>, api: string)
    requires i < |classes|
    requires forall j :: 0 <= j < |classes| && j != i ==> LeavesAlone(decls, classes, j, k)
    requires k != GetByUuidKey(classes[i].0) && k != GetUuidKey(classes[i].0)
    requires ChainFor(ClassRegistrations(decls, classes[i].0, classes[i].1), k) == chain
    requires forall current :: ApiFor(ClassRegistrations(decls, classes[i].0, classes[i].1), k, current) == Some(api)
    ensures k in Build(t, decls, classes) <==> k in t
    ensures k in Build(t, decls, classes) ==> Build(t, decls, classes)[k] == Handler(t[k].body, t[k].guards + chain, Some(api))
  {
    BuildOwned(t, decls, classes, k, i);
  }

  /** A name every class leaves alone is exactly as the class defined it. */
  lemma BuildUntouched(t: map<string, Handler>, decls: map<string, seq<string>>, classes: seq<(string, seq<Guard>)>, k: string)
    requires forall j :: 0 <= j < |classes| ==> LeavesAlone(decls, classes, j, k)
    ensures k in Build(t, decls, classes) <==> k in t
    ensures k in Build(t, decls, classes) ==> Build(t, decls, classes)[k] == t[k]
  {
    if classes == [] {
      BuildNothing(t, decls);
    } else {
      BuildUntouchedByFirst(t, decls, classes, k);
    }
  }

  /** With no classes the pass registers and installs nothing. */
  lemma BuildNothing(t: map<string, Handler>, decls: map<string, seq<string>>)
    ensures Build(t, decls, []) == t
  {
    assert AllRegistrations(decls, []) == [];
    assert InstallIdentities(t, []) == t;
  }

  lemma BuildUntouchedByFirst(t: map<string, Handler>, decls: map<string, seq<string>>, classes: seq<(string, seq<Guard>)>, k: string)
    requires |classes| > 0
    requires forall j :: 0 <= j < |classes| ==> LeavesAlone(decls, classes, j, k)
    ensures k in Build(t, decls, classes) <==> k in t
    ensures k in Build(t, decls, classes) ==> Build(t, decls, classes)[k] == t[k]
  {
    assert LeavesAlone(decls, classes, 0, k);
    ChainForMissed(ClassRegistrations(decls, classes[0].0, classes[0].1), k);
    BuildOwned(t, decls, classes, k, 0);
  }

  /** One of class i's identity names, which no other class touches, ends
      as the identity handler under the chain and the tag class i gives it. */
  lemma BuildIdentity(t: map<string, Handler>, decls: map<string, seq<string>>, classes: seq<(string, seq<Guard>)>,
                      k: string, i: nat, chain: seq<Guard>, api: string)
    requires i < |classes|
    requires forall j :: 0 <= j < |classes| && j != i ==> LeavesAlone(decls, classes, j, k)
    requires k == GetByUuidKey(classes[i].0) || k == GetUuidKey(classes[i].0)
    requires ChainFor(ClassRegistrations(decls, classes[i].0, classes[i].1), k) == chain
    requires forall current :: ApiFor(ClassRegistrations(decls, classes[i].0, classes[i].1), k, current) == Some(api)
    ensures k in Build(t, decls, classes) && Build(t, decls, classes)[k] == Handler(Identity, chain, Some(api))
  {
    BuildOwned(t, decls, classes, k, i);
    IdentityEntry(Build(t, decls, classes), k, ClassRegistrations(decls, classes[i].0, classes[i].1), chain, api);
  }

  lemma IdentityEntry(b: map<string, Handler>, k: string, regs: seq<Registration>, chain: seq<Guard>, api: string)
    requires k in b && b[k] == Handler(IdentityHandler().body, IdentityHandler().guards + ChainFor(regs, k), ApiFor(regs, k, IdentityHandler().api))
    requires ChainFor(regs, k) == chain
    requires forall current :: ApiFor(regs, k, current) == Some(api)
    ensures b[k] == Handler(Identity, chain, Some(api))
  {
    assert ApiFor(regs, k, None) == Some(api);
    assert [] + chain == chain;
  }

  lemma IdentityAmong(classes: seq<(string, seq<Guard>)>, k: string, i: nat)
    requires i < |classes|
    requires forall j :: 0 <= j < |classes| && j != i ==> k != GetByUuidKey(classes[j].0) && k != GetUuidKey(classes[j].0)
    ensures IsIdentityKey(classes, k) <==> k == GetByUuidKey(classes[i].0) || k == GetUuidKey(classes[i].0)
  {
  }
}
