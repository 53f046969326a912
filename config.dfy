/** `Config` of `python/src/config/config.py`: settings read from a YAML document, looked up
    by dotted keys, with environment variables taking precedence. The file system and the
    YAML parser are an oracle (the parsed document, or nothing), and the environment is a
    parameter. */
module Config {
  import opened Wrappers
  import opened Text

  /** A parsed YAML value: a mapping, or anything else (a scalar or a list). */
  datatype Value = Dict(entries: map<string, Value>) | Scalar(text: string)

  /** The environment variable that overrides `key`: upper case, dots become underscores. */
  function EnvKey(key: string): (r: string)
    ensures |r| == |key| && '.' !in r
    ensures forall i :: 0 <= i < |key| ==>
              r[i] == (if key[i] == '.' then '_' else UpperChar(key[i]))
  {
    var u := Upper(key);
    seq(|u|, i requires 0 <= i < |u| => if u[i] == '.' then '_' else u[i])
  }

  /** The value at the end of `path`: every segment must be a key of the mapping reached so
      far. */
  function Lookup(v: Value, path: seq<string>): Option<Value> {
    if |path| == 0 then Some(v)
    else if v.Dict? && path[0] in v.entries then Lookup(v.entries[path[0]], path[1..])
    else None
  }

  /** What `get(key, default)` answers: the environment's value when the variable is set,
      otherwise the nested value when every dotted segment is found, otherwise the
      default. */
  function Resolve(data: Value, env: map<string, string>, key: string, default: Option<Value>)
    : Option<Value>
  {
    if EnvKey(key) in env then Some(Scalar(env[EnvKey(key)]))
    else
      var found := Lookup(data, Split(key, '.'));
      if found.Some? then found else default
  }

  /** A path followed in two parts reaches what the whole path reaches. */
  lemma {:induction false} LookupAppend(v: Value, a: seq<string>, b: seq<string>)
    ensures Lookup(v, a + b)
            == (if Lookup(v, a).Some? then Lookup(Lookup(v, a).value, b) else None)
  {
    if |a| > 0 {
      assert (a + b)[0] == a[0] && (a + b)[1..] == a[1..] + b;
      if v.Dict? && a[0] in v.entries {
        LookupAppend(v.entries[a[0]], a[1..], b);
      }
    } else {
      assert a + b == b;
    }
  }

  /** `x` nested under the segments of `path`, outermost first. */
  function Nest(path: seq<string>, x: Value): Value {
    if |path| == 0 then x else Dict(map[path[0] := Nest(path[1..], x)])
  }

  /** A value stored under every segment of a path is found by that path. */
  lemma {:induction false} LookupNest(path: seq<string>, x: Value)
    ensures Lookup(Nest(path, x), path) == Some(x)
  {
    if |path| > 0 {
      LookupNest(path[1..], x);
    }
  }

  /** A set environment variable wins over the document and the default. */
  lemma EnvOverrides(data: Value, env: map<string, string>, key: string,
                     default: Option<Value>)
    requires EnvKey(key) in env
    ensures Resolve(data, env, key, default) == Some(Scalar(env[EnvKey(key)]))
  {
  }

  /** Without the variable, a dotted key whose first segments lead through mappings to the
      value finds it; a key whose first segment is missing, or a document that is not a
      mapping, gives the default. */
  lemma DocumentLookup(data: Value, env: map<string, string>, key: string,
                       default: Option<Value>)
    requires EnvKey(key) !in env
    ensures var path := Split(key, '.');
            (data.Scalar? || path[0] !in data.entries ==> Resolve(data, env, key, default) == default)
            && (Lookup(data, path).Some? ==> Resolve(data, env, key, default) == Lookup(data, path))
  {
  }

  class Config {
    var configData: Value

    /** `__init__` with `_load_config`: the parsed document, or an empty mapping when the
        file is missing or does not load. */
    constructor(loaded: Option<Value>)
      ensures configData == (if loaded.Some? then loaded.value else Dict(map[]))
    {
      if loaded.Some? {
        configData := loaded.value;
      } else {
        configData := Dict(map[]);
      }
    }

    /** `get`: the environment first, then the dotted path segment by segment, stopping
        with the default at the first segment that is not found in a mapping. */
    method Get(key: string, default: Option<Value>, env: map<string, string>)
      returns (r: Option<Value>)
      ensures r == Resolve(configData, env, key, default)
    {
      var envKey := EnvKey(key);
      if envKey in env {
        return Some(Scalar(env[envKey]));
      }
      var keys := Split(key, '.');
      var value := configData;
      var i := 0;
      while i < |keys|
        invariant 0 <= i <= |keys|
        invariant Lookup(configData, keys) == Lookup(value, keys[i..])
      {
        assert keys[i..][0] == keys[i] && keys[i..][1..] == keys[i + 1..];
        if value.Dict? && keys[i] in value.entries {
          value := value.entries[keys[i]];
        } else {
          return default;
        }
        i := i + 1;
      }
      return Some(value);
    }

    /** `__getattr__`: an attribute the object does not have is `get(name)` with no
        default. */
    method GetAttr(name: string, env: map<string, string>) returns (r: Option<Value>)
      ensures r == Resolve(configData, env, name, None)
    {
      r := Get(name, None, env);
    }
  }
}
