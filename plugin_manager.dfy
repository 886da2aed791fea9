/** The registry of plugins and command-line commands. Each of its three
    lists holds at most one instance per runtime class: registering an
    instance whose class is already present changes nothing, so the first
    registered instance of a class wins and new classes go to the end.
    Type queries are answered by a relation `assignable(type, cls)`, which
    stands for `type.isAssignableFrom(cls)` (and for `type.isInstance` of an
    object of class `cls`). */
module Plugins {
  import opened Wrappers

  type ClassName = string

  /** An object as far as the registry sees it: its runtime class, and an
      identity that tells two instances of one class apart. */
  datatype Instance = Instance(cls: ClassName, id: nat)

  /** No two entries share a runtime class. */
  ghost predicate ClassUnique(list: seq<Instance>)
  {
    forall i, j :: 0 <= i < j < |list| ==> list[i].cls != list[j].cls
  }

  predicate HasClass(list: seq<Instance>, cls: ClassName)
  {
    exists i :: 0 <= i < |list| && list[i].cls == cls
  }

  /** The list after registering `x`: unchanged when its class is present,
      otherwise `x` appended. */
  function Registered(list: seq<Instance>, x: Instance): (r: seq<Instance>)
    ensures HasClass(list, x.cls) ==> r == list
    ensures !HasClass(list, x.cls) ==> r == list + [x]
  {
    if HasClass(list, x.cls) then list else list + [x]
  }

  /** Registration keeps a list free of duplicate classes, keeps earlier
      entries where they were, and leaves exactly one entry of `x`'s class. */
  lemma RegisteredKeepsClassesUnique(list: seq<Instance>, x: Instance)
    requires ClassUnique(list)
    ensures ClassUnique(Registered(list, x))
    ensures Registered(list, x)[..|list|] == list
    ensures HasClass(Registered(list, x), x.cls)
  {
    if !HasClass(list, x.cls) {
      assert Registered(list, x)[|list|] == x;
    }
  }

  /** The entry for a class never changes once registered: the first
      registered instance of a class wins over any later one. */
  lemma {:induction false} FirstInstanceWins(list: seq<Instance>, later: seq<Instance>, i: nat)
    requires i < |list|
    ensures i < |RegisteredAll(list, later)| && RegisteredAll(list, later)[i] == list[i]
    decreases |later|
  {
    if later != [] {
      var next := Registered(list, later[0]);
      FirstInstanceWins(next, later[1..], i);
    }
  }

  /** Registering a sequence of instances one after another. */
  function RegisteredAll(list: seq<Instance>, xs: seq<Instance>): (r: seq<Instance>)
    ensures |list| <= |r| <= |list| + |xs|
    ensures r[..|list|] == list
    decreases |xs|
  {
    if xs == [] then list else RegisteredAll(Registered(list, xs[0]), xs[1..])
  }

  /** After any registrations, the list holds one instance of every class
      registered and no duplicate class. */
  lemma {:induction false} RegisteredAllCoversClasses(list: seq<Instance>, xs: seq<Instance>)
    requires ClassUnique(list)
    ensures ClassUnique(RegisteredAll(list, xs))
    ensures forall k :: 0 <= k < |xs| ==> HasClass(RegisteredAll(list, xs), xs[k].cls)
    ensures forall k :: 0 <= k < |list| ==> HasClass(RegisteredAll(list, xs), list[k].cls)
    decreases |xs|
  {
    if xs != [] {
      var next := Registered(list, xs[0]);
      RegisteredKeepsClassesUnique(list, xs[0]);
      RegisteredAllCoversClasses(next, xs[1..]);
      var r := RegisteredAll(list, xs);
      assert r == RegisteredAll(next, xs[1..]);
      forall k | 0 <= k < |xs|
        ensures HasClass(r, xs[k].cls)
      {
        if k == 0 {
          var j :| 0 <= j < |next| && next[j].cls == xs[0].cls;
          assert next[j].cls == xs[0].cls;
        } else {
          assert xs[k] == xs[1..][k - 1];
        }
      }
      forall k | 0 <= k < |list|
        ensures HasClass(r, list[k].cls)
      {
        assert next[k] == list[k];
      }
    }
  }

  /** The entries of `list` whose class is assignable to `t`, in list order. */
  function Assignable(list: seq<Instance>, t: ClassName, assignable: (ClassName, ClassName) -> bool): (r: seq<Instance>)
    ensures |r| <= |list|
    ensures forall x :: x in r <==> x in list && assignable(t, x.cls)
  {
    if list == [] then []
    else
      var init := Assignable(list[..|list| - 1], t, assignable);
      var last := list[|list| - 1];
      assert list == list[..|list| - 1] + [last];
      if assignable(t, last.cls) then init + [last] else init
  }

  class PluginManager {
    var internalPlugins: seq<Instance>
    var externalPlugins: seq<Instance>
    var commands: seq<Instance>

    ghost predicate Valid()
      reads this
    {
      ClassUnique(internalPlugins) && ClassUnique(externalPlugins) && ClassUnique(commands)
    }

    constructor ()
      ensures Valid()
      ensures internalPlugins == [] && externalPlugins == [] && commands == []
    {
      internalPlugins, externalPlugins, commands := [], [], [];
    }

    /** Linear scan for an entry of the given class. */
    static method ContainsClass(list: seq<Instance>, cls: ClassName) returns (found: bool)
      ensures found <==> HasClass(list, cls)
    {
      var i := 0;
      while i < |list|
        invariant 0 <= i <= |list|
        invariant forall j :: 0 <= j < i ==> list[j].cls != cls
      {
        if list[i].cls == cls {
          return true;
        }
        i := i + 1;
      }
      return false;
    }

    method RegisterInternalPlugin(plugin: Instance)
      requires Valid()
      modifies this`internalPlugins
      ensures Valid()
      ensures internalPlugins == Registered(old(internalPlugins), plugin)
    {
      RegisteredKeepsClassesUnique(internalPlugins, plugin);
      var present := ContainsClass(internalPlugins, plugin.cls);
      if present {
        return;
      }
      internalPlugins := internalPlugins + [plugin];
    }

    method RegisterExternalPlugin(plugin: Instance)
      requires Valid()
      modifies this`externalPlugins
      ensures Valid()
      ensures externalPlugins == Registered(old(externalPlugins), plugin)
    {
      RegisteredKeepsClassesUnique(externalPlugins, plugin);
      var present := ContainsClass(externalPlugins, plugin.cls);
      if present {
        return;
      }
      externalPlugins := externalPlugins + [plugin];
    }

    method RegisterCliCommand(command: Instance)
      requires Valid()
      modifies this`commands
      ensures Valid()
      ensures commands == Registered(old(commands), command)
    {
      RegisteredKeepsClassesUnique(commands, command);
      var present := ContainsClass(commands, command.cls);
      if present {
        return;
      }
      commands := commands + [command];
    }

    /** The first internal plugin that is an instance of `t`, or null. */
    method GetInternalPlugin(t: ClassName, assignable: (ClassName, ClassName) -> bool) returns (r: Option<Instance>)
      ensures r.None? <==> forall i :: 0 <= i < |internalPlugins| ==> !assignable(t, internalPlugins[i].cls)
      ensures r.Some? ==> exists i :: 0 <= i < |internalPlugins| && internalPlugins[i] == r.value
                                      && assignable(t, r.value.cls)
                                      && forall j :: 0 <= j < i ==> !assignable(t, internalPlugins[j].cls)
    {
      var i := 0;
      while i < |internalPlugins|
        invariant 0 <= i <= |internalPlugins|
        invariant forall j :: 0 <= j < i ==> !assignable(t, internalPlugins[j].cls)
      {
        if assignable(t, internalPlugins[i].cls) {
          return Some(internalPlugins[i]);
        }
        i := i + 1;
      }
      return None;
    }

    /** All external plugins assignable to `t`, in registration order. */
    method GetExternalPlugins(t: ClassName, assignable: (ClassName, ClassName) -> bool) returns (r: seq<Instance>)
      ensures r == Assignable(externalPlugins, t, assignable)
      ensures forall x :: x in r <==> x in externalPlugins && assignable(t, x.cls)
    {
      r := [];
      var i := 0;
      while i < |externalPlugins|
        invariant 0 <= i <= |externalPlugins|
        invariant r == Assignable(externalPlugins[..i], t, assignable)
      {
        assert externalPlugins[..i + 1][..i] == externalPlugins[..i];
        if assignable(t, externalPlugins[i].cls) {
          r := r + [externalPlugins[i]];
        }
        i := i + 1;
      }
      assert externalPlugins[..i] == externalPlugins;
    }

    /** External plugins followed by internal ones; a fresh list, so both
        registries stay as they are. */
    method GetPlugins() returns (r: seq<Instance>)
      ensures |r| == |externalPlugins| + |internalPlugins|
      ensures r[..|externalPlugins|] == externalPlugins
      ensures r[|externalPlugins|..] == internalPlugins
    {
      r := externalPlugins;
      r := r + internalPlugins;
    }
  }
}
