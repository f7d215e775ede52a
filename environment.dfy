/**
 * The public environment-variable map handed to the render context and, as JSON, to
 * the browser (`SsrPluginHandler.environmentVariables`, and the same loop inline in the
 * legacy `expressSsrPlugin`).
 */
module Environment {
  import opened Common

  /** A value in the public map: an explicit `null`, a string, or a number from the overrides. */
  datatype EnvValue = Null | Str(s: string) | Num(n: int)

  type Env = map<string, EnvValue>

  const ProjectEnvKey := "PROJECT_ENV"

  /**
   * `vars` is the map the resolver must produce: every permitted name is a key, the
   * deployment key is a key when the process defines it, every override is a key and
   * nothing else is; overrides win, and any other key carries the process value or an
   * explicit `Null` when the process does not define it.
   * `envVars` is `None` when the option is not an array, `additional` is `None` when the
   * overrides option is not a plain object.
   */
  ghost predicate ResolvedEnv(vars: Env, envVars: Option<seq<string>>, processEnv: map<string, string>,
                              additional: Option<map<string, EnvValue>>)
  {
    && (forall k :: k in vars <==>
          (envVars.Some? && k in envVars.value)
          || (k == ProjectEnvKey && k in processEnv)
          || (additional.Some? && k in additional.value))
    && (forall k :: additional.Some? && k in additional.value ==> k in vars && vars[k] == additional.value[k])
    && (forall k :: k in vars && !(additional.Some? && k in additional.value) ==>
          vars[k] == if k in processEnv then Str(processEnv[k]) else Null)
  }

  /** At most one map is the resolved environment of given inputs. */
  lemma ResolvedEnvUnique(v1: Env, v2: Env, envVars: Option<seq<string>>, processEnv: map<string, string>,
                          additional: Option<map<string, EnvValue>>)
    requires ResolvedEnv(v1, envVars, processEnv, additional)
    requires ResolvedEnv(v2, envVars, processEnv, additional)
    ensures v1 == v2
  {
    assert v1.Keys == v2.Keys;
    forall k | k in v1
      ensures v1[k] == v2[k]
    {
    }
  }

  /**
   * Builds the public map: one entry per permitted name (null when unset), then the
   * deployment key when the process defines it, then the overrides one by one.
   */
  method EnvironmentVariables(envVars: Option<seq<string>>, processEnv: map<string, string>,
                              additional: Option<map<string, EnvValue>>)
    returns (vars: Env)
    ensures ResolvedEnv(vars, envVars, processEnv, additional)
  {
    vars := map[];
    if envVars.Some? {
      var names := envVars.value;
      var i := 0;
      while i < |names|
        invariant 0 <= i <= |names|
        invariant forall k :: k in vars <==> k in names[..i]
        invariant forall k :: k in vars ==> vars[k] == if k in processEnv then Str(processEnv[k]) else Null
      {
        var key := names[i];
        if key !in processEnv {
          vars := vars[key := Null];
        } else {
          vars := vars[key := Str(processEnv[key])];
        }
        assert names[..i + 1] == names[..i] + [key];
        i := i + 1;
      }
      assert names[..i] == names;
    }

    if ProjectEnvKey in processEnv {
      vars := vars[ProjectEnvKey := Str(processEnv[ProjectEnvKey])];
    }

    if additional.Some? {
      var overrides := additional.value;
      ghost var computed := vars;
      var pending := overrides.Keys;
      while pending != {}
        invariant pending <= overrides.Keys
        invariant forall k :: k in vars <==> k in computed || (k in overrides && k !in pending)
        invariant forall k :: k in overrides && k !in pending ==> k in vars && vars[k] == overrides[k]
        invariant forall k :: k in vars && !(k in overrides && k !in pending) ==> vars[k] == computed[k]
        decreases pending
      {
        var k :| k in pending;
        vars := vars[k := overrides[k]];
        pending := pending - {k};
      }
    }
  }
}
