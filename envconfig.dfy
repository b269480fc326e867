/** The settings dictionaries of the container scripts and their override from
    the process environment (`for key in config.keys(): config[key] =
    os.environ[key]`, a missing variable leaving the default). */
module EnvConfig {

  /** A setting value: the defaults are texts, integers or decimals; a value taken
      from the environment is always a text. */
  datatype Setting = Text(text: string) | Whole(n: int) | Fraction(x: real)

  /** Python truthiness of a setting. */
  predicate Truthy(s: Setting)
  {
    match s
    case Text(t) => |t| > 0
    case Whole(n) => n != 0
    case Fraction(x) => x != 0.0
  }

  /** The settings after the override: every key keeps its place, and takes the
      environment's text when the environment defines it. */
  function Overridden(values: map<string, Setting>, env: map<string, string>): (r: map<string, Setting>)
    ensures r.Keys == values.Keys
    ensures forall k :: k in r && k in env ==> r[k] == Text(env[k])
    ensures forall k :: k in r && k !in env ==> r[k] == values[k]
  {
    map k | k in values :: if k in env then Text(env[k]) else values[k]
  }

  /** Overriding twice from the same environment changes nothing more. */
  lemma OverrideIdempotent(values: map<string, Setting>, env: map<string, string>)
    ensures Overridden(Overridden(values, env), env) == Overridden(values, env)
  {
  }

  /** An environment that defines none of the keys leaves the settings as they are. */
  lemma OverrideUnrelated(values: map<string, Setting>, env: map<string, string>)
    requires forall k :: k in values ==> k !in env
    ensures Overridden(values, env) == values
  {
  }

  /** The settings once the keys in `done` have been looked up. */
  ghost function OverriddenFor(values: map<string, Setting>, env: map<string, string>, done: seq<string>): map<string, Setting>
  {
    map k | k in values :: if k in done && k in env then Text(env[k]) else values[k]
  }

  lemma OverrideStep(values: map<string, Setting>, env: map<string, string>, keys: seq<string>, i: nat)
    requires i < |keys| && keys[i] in values
    ensures OverriddenFor(values, env, keys[..i + 1])
            == if keys[i] in env then OverriddenFor(values, env, keys[..i])[keys[i] := Text(env[keys[i]])]
               else OverriddenFor(values, env, keys[..i])
  {
    assert keys[..i + 1] == keys[..i] + [keys[i]];
    assert forall k :: k in keys[..i + 1] <==> k in keys[..i] || k == keys[i];
  }

  lemma OverrideAll(values: map<string, Setting>, env: map<string, string>, keys: seq<string>)
    requires forall k :: k in values ==> k in keys
    ensures OverriddenFor(values, env, keys[..|keys|]) == Overridden(values, env)
  {
    assert keys[..|keys|] == keys;
  }

  /** A settings dictionary: its keys in insertion order and their values. */
  class Config {
    const keys: seq<string>
    var values: map<string, Setting>

    ghost predicate Valid()
      reads this
    {
      && (forall i, j :: 0 <= i < j < |keys| ==> keys[i] != keys[j])
      && (forall k :: k in values <==> k in keys)
    }

    constructor (keys: seq<string>, defaults: seq<Setting>)
      requires |keys| == |defaults|
      requires forall i, j :: 0 <= i < j < |keys| ==> keys[i] != keys[j]
      ensures Valid() && this.keys == keys
      ensures forall i :: 0 <= i < |keys| ==> values[keys[i]] == defaults[i]
    {
      this.keys := keys;
      values := map i | 0 <= i < |keys| :: keys[i] := defaults[i];
      new;
      forall k | k in values
        ensures k in keys
      {
        var i :| 0 <= i < |keys| && keys[i] == k;
      }
      forall i | 0 <= i < |keys|
        ensures values[keys[i]] == defaults[i]
      {
        assert keys[i] in values;
      }
    }

    /** The override loop, one key at a time in the dictionary's order. */
    method OverrideFromEnvironment(env: map<string, string>)
      requires Valid()
      modifies this`values
      ensures Valid()
      ensures values == Overridden(old(values), env)
    {
      var i := 0;
      while i < |keys|
        invariant 0 <= i <= |keys|
        invariant values == OverriddenFor(old(values), env, keys[..i])
      {
        var key := keys[i];
        OverrideStep(old(values), env, keys, i);
        if key in env {
          values := values[key := Text(env[key])];
        }
        i := i + 1;
      }
      OverrideAll(old(values), env, keys);
    }
  }
}
