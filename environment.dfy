/** The variable store: a map from names to values, seeded with four named constants
    and `x`. The constants can never be redefined; any other name is created or
    overwritten by `define`; nothing is ever removed. */
module Environment {
  import opened Results

  type Env = map<string, real>

  /** The names `define` refuses. */
  predicate IsConstant(s: string)
  {
    s == "pi" || s == "e" || s == "phi" || s == "tau"
  }

  /** The map a new environment holds (the C++ stores each value as a `float`). */
  function Seeded(): Env
  {
    map["pi" := 3.1415926535897932385, "e" := 2.7182818284590452354,
        "phi" := 1.6180339887498948482, "tau" := 6.2831853071795864769, "x" := 0.0]
  }

  function ConstantMsg(s: string): string
  {
    s + " is a constant. " + "Cannot redefine constant"
  }

  function UndeclaredMsg(s: string): string
  {
    s + " not declared"
  }

  /** `define`: the new map, or the refusal for a constant. */
  function Defined(env: Env, s: string, v: real): (r: Result<Env>)
    ensures r.Err? <==> IsConstant(s)
    ensures r.Err? ==> r.msg == ConstantMsg(s)
    ensures r.Ok? ==> s in r.value && r.value[s] == v
    ensures r.Ok? ==> forall k :: k != s ==> (k in r.value <==> k in env)
    ensures r.Ok? ==> forall k :: k != s && k in env ==> r.value[k] == env[k]
  {
    if IsConstant(s) then Err(ConstantMsg(s)) else Ok(env[s := v])
  }

  /** `get`: the value bound to `s`, or the complaint that it is not declared. */
  function Lookup(env: Env, s: string): (r: Result<real>)
    ensures r.Ok? <==> s in env
    ensures r.Ok? ==> r.value == env[s]
    ensures r.Err? ==> r.msg == UndeclaredMsg(s)
  {
    if s in env then Ok(env[s]) else Err(UndeclaredMsg(s))
  }

  /** A new environment binds `x` to 0 and holds every constant. */
  lemma SeededNames(c: string)
    ensures "x" in Seeded() && Seeded()["x"] == 0.0
    ensures IsConstant(c) ==> c in Seeded()
    ensures c in Seeded() <==> IsConstant(c) || c == "x"
  {
  }

  /** Reading back a name just defined gives the value defined. */
  lemma DefineThenLookup(env: Env, s: string, v: real)
    requires !IsConstant(s)
    ensures Defined(env, s, v).Ok? && Lookup(Defined(env, s, v).value, s) == Ok(v)
  {
  }

  /** A define leaves every other name as it was, whether it succeeds or not. */
  lemma DefineFrame(env: Env, s: string, v: real, k: string)
    requires k != s
    ensures var r := Defined(env, s, v); r.Err? || Lookup(r.value, k) == Lookup(env, k)
  {
  }

  /** The result of a sequence of `define` calls; a refused one changes nothing. */
  function DefineAll(env: Env, defs: seq<(string, real)>): Env
    decreases |defs|
  {
    if |defs| == 0 then env
    else
      var r := Defined(env, defs[0].0, defs[0].1);
      DefineAll(if r.Ok? then r.value else env, defs[1..])
  }

  /** No sequence of defines removes a name or changes a constant. */
  lemma {:induction false} DefinesKeepConstants(env: Env, defs: seq<(string, real)>)
    ensures env.Keys <= DefineAll(env, defs).Keys
    ensures forall c :: IsConstant(c) && c in env ==> DefineAll(env, defs)[c] == env[c]
    decreases |defs|
  {
    if |defs| > 0 {
      var r := Defined(env, defs[0].0, defs[0].1);
      var next := if r.Ok? then r.value else env;
      DefinesKeepConstants(next, defs[1..]);
    }
  }

  /** Starting from a new environment, the constants keep their seeded values forever. */
  lemma SeededConstantsForever(defs: seq<(string, real)>, c: string)
    requires IsConstant(c)
    ensures c in DefineAll(Seeded(), defs) && DefineAll(Seeded(), defs)[c] == Seeded()[c]
  {
    DefinesKeepConstants(Seeded(), defs);
  }

  /** The environment object: the map `saved`, updated in place. */
  class Environment {
    var saved: Env

    constructor ()
      ensures saved == Seeded()
    {
      saved := Seeded();
    }

    method Define(s: string, val: real) returns (r: Result<()>)
      modifies this
      ensures r.Err? <==> IsConstant(s)
      ensures r.Err? ==> r.msg == ConstantMsg(s) && saved == old(saved)
      ensures r.Ok? ==> Defined(old(saved), s, val) == Ok(saved)
    {
      if s == "pi" || s == "e" || s == "phi" || s == "tau" {
        return Err(s + " is a constant. " + "Cannot redefine constant");
      }
      saved := saved[s := val];
      return Ok(());
    }

    method Get(s: string) returns (r: Result<real>)
      ensures r == Lookup(saved, s)
    {
      if s !in saved {
        return Err(s + " not declared");
      }
      return Ok(saved[s]);
    }
  }
}
