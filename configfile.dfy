/** A model of the target table of configfile.go.

    A Go map is a reference to a shared table: the `ConfigTarget` returned by
    `ConfigFile.Target` and the one stored under that name are the same table,
    so `Set` and `Delete` through either change both. The model keeps that by
    making `ConfigTarget` a class whose `entries` field the methods reassign,
    and `ConfigFile.targets` a map from names to those objects. */
module Config {

  datatype Result<T> = Ok(value: T) | Err(message: string)

  /** A single target: a flat key/value profile. */
  class ConfigTarget {
    var entries: map<string, string>

    /** A `ConfigTarget{...}` literal. */
    constructor (entries: map<string, string>)
      ensures this.entries == entries
    {
      this.entries := entries;
    }

    /** `Get`: the stored value, or Go's zero value "" for a missing key. */
    function Get(key: string): (value: string)
      reads this
      ensures key in entries ==> value == entries[key]
      ensures key !in entries ==> value == ""
    {
      if key in entries then entries[key] else ""
    }

    /** `Set`: after it, `Get(key)` is `value`; no other key changes. Returns the receiver. */
    method Set(key: string, value: string) returns (self: ConfigTarget)
      modifies this
      ensures self == this
      ensures entries == old(entries)[key := value]
      ensures Get(key) == value
      ensures forall other :: other != key ==> Get(other) == old(Get(other))
    {
      entries := entries[key := value];
      self := this;
    }

    /** `Delete`: removes `key`, a no-op when it is absent; no other key changes.
        Returns the receiver. */
    method Delete(key: string) returns (self: ConfigTarget)
      modifies this
      ensures self == this
      ensures entries == old(entries) - {key}
      ensures key !in entries && Get(key) == ""
      ensures forall other :: other != key ==> Get(other) == old(Get(other))
    {
      entries := entries - {key};
      self := this;
    }
  }

  /** The configuration file: named targets. */
  class ConfigFile {
    var targets: map<string, ConfigTarget>

    /** The contents of every target, by name. */
    function Profiles(): (p: map<string, map<string, string>>)
      reads this, targets.Values
      ensures p.Keys == targets.Keys
      ensures forall name :: name in targets ==> p[name] == targets[name].entries
    {
      map name | name in targets :: targets[name].entries
    }

    /** `NewConfigFile` before its call of `Load`: only the default target,
        which is the caller's own table. */
    constructor (defaultTarget: ConfigTarget)
      ensures targets == map["default" := defaultTarget]
    {
      targets := map["default" := defaultTarget];
    }

    /** `Create`: adds the target `{"type": storeType}` under an absent name and
        leaves an existing one as it is; no other target changes. Returns the receiver. */
    method Create(name: string, storeType: string) returns (self: ConfigFile)
      modifies this
      ensures self == this
      ensures name in old(targets) ==> targets == old(targets)
      ensures name !in old(targets) ==>
        && name in targets && fresh(targets[name])
        && targets == old(targets)[name := targets[name]]
      ensures name in old(targets) ==> Profiles() == old(Profiles())
      ensures name !in old(targets) ==> Profiles() == old(Profiles())[name := map["type" := storeType]]
    {
      if name !in targets {
        var created := new ConfigTarget(map["type" := storeType]);
        targets := targets[name := created];
      }
      self := this;
    }

    /** `Target`: the stored target itself when present, otherwise the error
        "<name> target not found". */
    method Target(name: string) returns (r: Result<ConfigTarget>)
      ensures name in targets ==> r == Ok(targets[name])
      ensures name !in targets ==> r == Err(name + " target not found")
    {
      if name in targets {
        return Ok(targets[name]);
      }
      return Err(name + " target not found");
    }

    /** `Delete`: removes `name`, a no-op when it is absent; no other target
        changes. Returns the receiver. */
    method Delete(name: string) returns (self: ConfigFile)
      modifies this
      ensures self == this
      ensures targets == old(targets) - {name}
      ensures name !in old(targets) ==> targets == old(targets)
      ensures Profiles() == old(Profiles()) - {name}
    {
      targets := targets - {name};
      self := this;
    }
  }
}
