/**
 * The XendAPI class object and its __init__ (XendAPI.py lines 188-275):
 * the registration pass as the source runs it, loop by loop, updating the
 * class's handler attributes in place.
 */
module Api {
  import opened Wrappers
  import opened Guards
  import opened Handlers
  import opened Registration
  import opened Declarations

  /** The XendAPI class: its handler attributes (the table __init__
      patches), its declaration attributes, and whether __init__ has
      already patched it. */
  class ApiClass {
    var table: map<string, Handler>
    var declarations: map<string, seq<string>>
    var wrapped: bool

    /** The class as its body defines it, before any instance exists. */
    constructor ()
      ensures table == InitialTable() && declarations == ClassAttributes() && !wrapped
    {
      table := InitialTable();
      declarations := ClassAttributes();
      wrapped := false;
    }

    /** getattr, fold the validators around the handler one by one, tag it,
        setattr; a name the class lacks is logged and skipped. */
    method WrapEntry(key: string, validators: seq<Guard>, api: string)
      modifies this`table
      ensures table == Wrap(old(table), Registration(key, validators, api))
    {
      if key in table {
        var handler := table[key];
        for i := 0 to |validators|
          invariant handler == Handler(table[key].body, table[key].guards + validators[..i], table[key].api)
        {
          assert validators[..i + 1] == validators[..i] + [validators[i]];
          handler := handler.(guards := handler.guards + [validators[i]]);
        }
        assert validators[..|validators|] == validators;
        handler := handler.(api := Some(api));
        table := table[key := handler];
      }
    }

    /** One of the four inner loops of __init__: wrap the handler of every
        name of a declaration list with the same chain. */
    method WrapPass(kind: Kind, cls: string, chain: seq<Guard>, names: seq<string>)
      modifies this`table
      ensures table == Apply(old(table), Registrations(kind, cls, chain, names))
    {
      for j := 0 to |names|
        invariant table == Apply(old(table), Registrations(kind, cls, chain, names[..j]))
      {
        RegistrationsStep(old(table), kind, cls, chain, names, j);
        WrapEntry(Key(kind, cls, names[j]), chain, ApiName(kind, cls, names[j]));
      }
      assert names[..|names|] == names;
    }

    /** One iteration of the wrapping loop: the getter, setter, method and
        class function passes of one class, in that order; class functions
        get session_required alone. */
    method WrapClass(cls: string, validators: seq<Guard>)
      modifies this`table
      ensures table == Apply(old(table), ClassRegistrations(declarations, cls, validators))
    {
      // getattr(self, cls + '_attr_ro', []) and the other declaration
      // lists, each followed by its Base_ counterpart
      var readable := ReadableOf(declarations, cls);
      var writable := WritableOf(declarations, cls);
      var methods := MethodsOf(declarations, cls);
      var funcs := FunctionsOf(declarations, cls);
      ghost var before := table;
      WrapPass(Getter, cls, validators, readable);
      ghost var afterGetters := table;
      WrapPass(Setter, cls, validators, writable);
      ghost var afterSetters := table;
      WrapPass(Method, cls, validators, methods);
      ghost var afterMethods := table;
      WrapPass(ClassFunction, cls, [SessionRequired], funcs);
      ClassStages(before, afterGetters, afterSetters, afterMethods, table, declarations, cls, validators);
    }

    /** The "cheat methods" loop of __init__: both identity handlers of
        every class, installed over whatever the class defined. */
    method InstallIdentityHandlers(classes: seq<(string, seq<Guard>)>)
      modifies this`table
      ensures table == InstallIdentities(old(table), classes)
    {
      for i := 0 to |classes|
        invariant table == InstallIdentities(old(table), classes[..i])
      {
        var cls := classes[i].0;
        assert classes[..i + 1][..i] == classes[..i];
        table := table[GetByUuidKey(cls) := IdentityHandler()];
        table := table[GetUuidKey(cls) := IdentityHandler()];
      }
      assert classes[..|classes|] == classes;
    }

    /** The wrapping loop of __init__, class after class. */
    method WrapClasses(classes: seq<(string, seq<Guard>)>)
      modifies this`table
      ensures table == Apply(old(table), AllRegistrations(declarations, classes))
    {
      for i := 0 to |classes|
        invariant table == Apply(old(table), AllRegistrations(declarations, classes[..i]))
      {
        var (cls, validators) := classes[i];
        WrapClass(cls, validators);
        assert classes[..i + 1][..i] == classes[..i];
        ApplyConcat(old(table), AllRegistrations(declarations, classes[..i]), ClassRegistrations(declarations, cls, validators));
      }
      assert classes[..|classes|] == classes;
    }

    /** __init__ over a given class list: install the identity handlers of
        every class, then wrap every declared getter, setter, method and
        class function. */
    method Patch(classes: seq<(string, seq<Guard>)>)
      modifies this`table
      ensures table == Build(old(table), declarations, classes)
    {
      InstallIdentityHandlers(classes);
      WrapClasses(classes);
    }

    /** __init__: the patching pass over the six classes of the API.
        Running it a second time would wrap everything twice, so it runs
        once. */
    method Init()
      requires !wrapped
      modifies this
      ensures wrapped && declarations == old(declarations)
      ensures table == Build(old(table), old(declarations), Classes())
    {
      Patch(Classes());
      wrapped := true;
    }
  }
}
