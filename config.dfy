/**
 * The nested key-path lookup of the configuration object (utils/config.py,
 * `Config.get`). Loading the TOML file is outside the model: the object is
 * built from the already parsed table.
 */
module Configuration {

  /** A parsed TOML value; `Null` is Python's `None`, which `dict.get` yields for a missing key. */
  datatype Toml =
    | Null
    | Bool(b: bool)
    | Int(i: int)
    | Float(x: real)
    | Str(s: string)
    | Array(items: seq<Toml>)
    | Table(entries: map<string, Toml>)

  /**
   * The value `get` returns: walk `keys` from `value`; at the first step
   * where the current value is not a table, or the key is missing or holds
   * `None`, the answer is `default`.
   */
  function Lookup(value: Toml, keys: seq<string>, default: Toml): Toml
    decreases |keys|
  {
    if keys == [] then value
    else if !value.Table? then default
    else if keys[0] !in value.entries || value.entries[keys[0]].Null? then default
    else Lookup(value.entries[keys[0]], keys[1..], default)
  }

  /**
   * The path `keys` leads from `value` to `target` through tables, each key
   * present and none of the values on the way `None`.
   */
  ghost predicate Reaches(value: Toml, keys: seq<string>, target: Toml)
    decreases |keys|
  {
    if keys == [] then value == target
    else
      && value.Table?
      && keys[0] in value.entries
      && !value.entries[keys[0]].Null?
      && Reaches(value.entries[keys[0]], keys[1..], target)
  }

  /** A path that resolves yields the value at its end, whatever the default. */
  lemma {:induction false} LookupFollowsPath(value: Toml, keys: seq<string>, target: Toml, default: Toml)
    requires Reaches(value, keys, target)
    ensures Lookup(value, keys, default) == target
    decreases |keys|
  {
    if keys != [] {
      LookupFollowsPath(value.entries[keys[0]], keys[1..], target, default);
    }
  }

  /** A path that does not resolve yields the default. */
  lemma {:induction false} LookupFallsBack(value: Toml, keys: seq<string>, default: Toml)
    requires forall t :: !Reaches(value, keys, t)
    ensures Lookup(value, keys, default) == default
    decreases |keys|
  {
    if keys == [] {
      assert Reaches(value, keys, value);
    } else if value.Table? && keys[0] in value.entries && !value.entries[keys[0]].Null? {
      forall t ensures !Reaches(value.entries[keys[0]], keys[1..], t) {
        assert Reaches(value, keys, t) == Reaches(value.entries[keys[0]], keys[1..], t);
      }
      LookupFallsBack(value.entries[keys[0]], keys[1..], default);
    }
  }

  /** Whatever `get` returns is either the default or the value the path resolves to. */
  lemma {:induction false} LookupIsPathOrDefault(value: Toml, keys: seq<string>, default: Toml)
    ensures Lookup(value, keys, default) == default || Reaches(value, keys, Lookup(value, keys, default))
    decreases |keys|
  {
    if keys != [] && value.Table? && keys[0] in value.entries && !value.entries[keys[0]].Null? {
      LookupIsPathOrDefault(value.entries[keys[0]], keys[1..], default);
    }
  }

  /**
   * Falsy values such as `0`, `False` or `""` at the end of a resolving path
   * are returned as they are, not replaced by the default.
   */
  lemma LookupKeepsFalsy(value: Toml, keys: seq<string>, default: Toml)
    requires Reaches(value, keys, Int(0)) || Reaches(value, keys, Bool(false)) || Reaches(value, keys, Str(""))
    ensures Lookup(value, keys, default) in {Int(0), Bool(false), Str("")}
  {
    if Reaches(value, keys, Int(0)) {
      LookupFollowsPath(value, keys, Int(0), default);
    } else if Reaches(value, keys, Bool(false)) {
      LookupFollowsPath(value, keys, Bool(false), default);
    } else {
      LookupFollowsPath(value, keys, Str(""), default);
    }
  }

  /** Looking up a longer path is looking up its tail from where its head leads. */
  lemma {:induction false} LookupAppend(value: Toml, head: seq<string>, tail: seq<string>, mid: Toml, default: Toml)
    requires Reaches(value, head, mid)
    ensures Lookup(value, head + tail, default) == Lookup(mid, tail, default)
    decreases |head|
  {
    if head != [] {
      assert (head + tail)[0] == head[0];
      assert (head + tail)[1..] == head[1..] + tail;
      LookupAppend(value.entries[head[0]], head[1..], tail, mid, default);
    } else {
      assert head + tail == tail;
    }
  }

  class Config {
    /** The parsed contents of `config/config.toml`. */
    var configData: map<string, Toml>

    constructor (data: map<string, Toml>)
      ensures configData == data
    {
      configData := data;
    }

    /**
     * `config.get(*keys, default=default)`: the value at the nested path,
     * or `default`. With no keys it is the whole table. It changes nothing.
     */
    method Get(keys: seq<string>, default: Toml) returns (r: Toml)
      ensures r == Lookup(Table(configData), keys, default)
    {
      var value := Table(configData);
      for i := 0 to |keys|
        invariant Lookup(Table(configData), keys, default) == Lookup(value, keys[i..], default)
      {
        if !value.Table? {
          return default;
        }
        var key := keys[i];
        if key !in value.entries || value.entries[key].Null? {
          return default;
        }
        value := value.entries[key];
      }
      return value;
    }
  }
}
