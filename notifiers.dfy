/** The notifier registry (lib/klaxon/notifiers.rb): a module-level hash from
    key to notifier that is created on first access and updated in place. */
module Notifiers {
  import opened RubyValues

  /** A notifier: a Ruby class responding to `notify`, named by its class name. */
  datatype Notifier = Notifier(className: string)

  /** `Notifiers.default_notifier`: the key groups use when they name no notifier. */
  function DefaultNotifier(): (key: Value)
    ensures key == Sym("email") && Truthy(key)
  {
    Sym("email")
  }

  /** `hash[key]` on the registry's hash: the stored notifier, or nil. */
  function Find(table: map<Value, Notifier>, key: Value): (found: Option<Notifier>)
    ensures found.Some? <==> key in table
    ensures found.Some? ==> found.value == table[key]
  {
    if key in table then Some(table[key]) else None
  }

  /** `hash.store(key, notifier)`: the key now finds the notifier, every other
      key finds what it found before, and an earlier entry for the key is replaced. */
  function Store(table: map<Value, Notifier>, key: Value, notifier: Notifier): (stored: map<Value, Notifier>)
    ensures Find(stored, key) == Some(notifier)
    ensures forall other :: other != key ==> Find(stored, other) == Find(table, other)
    ensures stored.Keys == table.Keys + {key}
  {
    table[key := notifier]
  }

  /** The state of `Klaxon::Notifiers`. */
  class Registry {
    /** `@notifiers`: nil until the first access creates an empty hash. */
    var notifiers: Option<map<Value, Notifier>>

    /** The module as loaded, before any access. */
    constructor ()
      ensures notifiers == None
    {
      notifiers := None;
    }

    /** The hash the registry behaves as: a nil `@notifiers` acts as empty. */
    function Table(): map<Value, Notifier>
      reads this
    {
      if notifiers.Some? then notifiers.value else map[]
    }

    /** `Notifiers.notifiers`: `@notifiers ||= {}`. */
    method Notifiers() returns (table: map<Value, Notifier>)
      modifies this
      ensures table == old(Table())
      ensures notifiers == Some(table)
    {
      if notifiers.None? {
        notifiers := Some(map[]);
      }
      table := notifiers.value;
    }

    /** `Notifiers.register!(key, notifier)`: stores, silently replacing any
        earlier notifier under the same key, and returns the notifier. */
    method Register(key: Value, notifier: Notifier) returns (stored: Notifier)
      modifies this
      ensures notifiers == Some(Store(old(Table()), key, notifier))
      ensures stored == notifier
    {
      var table := Notifiers();
      notifiers := Some(Store(table, key, notifier));
      stored := notifier;
    }

    /** `Notifiers[key]`: the registered notifier, or nil (never an error).
        The first access creates the empty hash. */
    method Lookup(key: Value) returns (found: Option<Notifier>)
      modifies this
      ensures found == Find(old(Table()), key)
      ensures notifiers == Some(old(Table()))
    {
      var table := Notifiers();
      found := Find(table, key);
    }
  }

  /** A fresh registry finds nothing, finds a registered notifier under its
      key, keeps the answer for every other key, and lets a second
      registration under the same key replace the first. */
  method RegistryScenario(key: Value, other: Value, first: Notifier, second: Notifier)
    returns (before: Option<Notifier>, afterFirst: Option<Notifier>,
             otherKey: Option<Notifier>, afterSecond: Option<Notifier>)
    requires other != key
    ensures before == None
    ensures afterFirst == Some(first)
    ensures otherKey == None
    ensures afterSecond == Some(second)
  {
    var registry := new Registry();
    before := registry.Lookup(key);
    var _ := registry.Register(key, first);
    afterFirst := registry.Lookup(key);
    otherKey := registry.Lookup(other);
    var _ := registry.Register(key, second);
    afterSecond := registry.Lookup(key);
  }
}
