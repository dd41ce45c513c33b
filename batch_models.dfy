/**
 * The batch-service records the start-task generator produces
 * (azure.batch.models), reduced to the fields the generator sets.
 */
module BatchModels {
  import opened Wrappers

  /** An environment setting's value: the generator passes strings, booleans and port numbers. */
  datatype EnvValue = Text(text: string) | Flag(flag: bool) | Number(number: int)

  datatype EnvironmentSetting = EnvironmentSetting(name: string, value: EnvValue)

  /** A file the batch service downloads onto the node before the start task runs. */
  datatype ResourceFile = ResourceFile(blobSource: string, filePath: string)

  datatype AutoUserScope = TaskScope | PoolScope
  datatype ElevationLevel = NonAdmin | Admin
  datatype AutoUserSpecification = AutoUserSpecification(scope: AutoUserScope, elevationLevel: ElevationLevel)
  datatype UserIdentity = UserIdentity(autoUser: AutoUserSpecification)

  /** The identity every cluster start task runs under: a pool-scoped administrator. */
  const PoolAdminUserIdentity := UserIdentity(AutoUserSpecification(PoolScope, Admin))

  datatype StartTask = StartTask(
    commandLine: string,
    resourceFiles: seq<ResourceFile>,
    environmentSettings: seq<EnvironmentSetting>,
    userIdentity: UserIdentity,
    waitForSuccess: bool)

  /** The names of a list of settings, in order. */
  function Names(env: seq<EnvironmentSetting>): (ns: seq<string>)
    ensures |ns| == |env|
    ensures forall k :: 0 <= k < |env| ==> ns[k] == env[k].name
  {
    seq(|env|, k requires 0 <= k < |env| => env[k].name)
  }

  /** `env` holds a setting of `name` to `value`. */
  predicate Sets(env: seq<EnvironmentSetting>, name: string, value: EnvValue)
  {
    EnvironmentSetting(name, value) in env
  }

  /** No two entries of `s` are equal. */
  predicate Distinct(s: seq<string>)
  {
    forall i, j :: 0 <= i < j < |s| ==> s[i] != s[j]
  }

  /** In a list whose names are distinct, a name is set to at most one value. */
  lemma SetsUnique(env: seq<EnvironmentSetting>, name: string, v: EnvValue, w: EnvValue)
    requires Distinct(Names(env))
    requires Sets(env, name, v) && Sets(env, name, w)
    ensures v == w
  {
    var i :| 0 <= i < |env| && env[i] == EnvironmentSetting(name, v);
    var j :| 0 <= j < |env| && env[j] == EnvironmentSetting(name, w);
    assert Names(env)[i] == Names(env)[j];
  }
}
