/**
 * The oldest environment helpers (`services/env/env.py`). Every failure is a
 * plain RuntimeError carrying a message, except the ValueError `int()`
 * raises; nothing is stripped before matching a boolean or an integer; the
 * list parser is the raw split; and the filesystem helpers return None.
 */
module EnvOldest {
  import opened Wrappers
  import opened Strings
  import EnvUtils

  datatype OldestError = RuntimeError(message: string) | ValueError(value: string)

  /** `not_empty_string`: the raw value of a variable that is set and not blank. */
  function NotEmptyString(env: EnvUtils.Env, name: string): (r: Result<string, OldestError>)
    ensures name !in env ==> r == Err(RuntimeError("Env " + name + " not set"))
    ensures name in env && !EnvUtils.HasText(env[name]) ==> r == Err(RuntimeError("Env " + name + " set but empty once striped"))
    ensures name in env && EnvUtils.HasText(env[name]) ==> r == Ok(env[name])
  {
    if name !in env then Err(RuntimeError("Env " + name + " not set"))
    else
      StripEmptyIffBlank(env[name]);
      if Strip(env[name]) == [] then Err(RuntimeError("Env " + name + " set but empty once striped")) else Ok(env[name])
  }

  /** `boolean`: the value exactly as set must be one of the spellings. */
  function Boolean(env: EnvUtils.Env, name: string, default: Option<bool>): (r: Result<bool, OldestError>)
    ensures name !in env ==> r == (if default.Some? then Ok(default.value) else Err(RuntimeError("Env " + name + " not set")))
    ensures name in env ==> (r == Ok(true) <==> env[name] in EnvUtils.TrueStrings)
    ensures name in env ==> (r == Ok(false) <==> env[name] in EnvUtils.FalseStrings)
    ensures r.Err? ==> r.error.RuntimeError?
  {
    if name !in env then
      if default.Some? then Ok(default.value) else Err(RuntimeError("Env " + name + " not set"))
    else if EnvUtils.SpellingsDisjoint(env[name]); env[name] in EnvUtils.TrueStrings then Ok(true)
    else if env[name] in EnvUtils.FalseStrings then Ok(false)
    else Err(RuntimeError("Env " + name + " expect a boolean but is set to '" + env[name] + "'"))
  }

  /** Whatever the oldest `boolean` accepts, the later `boolean` reads the same way. */
  lemma BooleanStricterThanLater(env: EnvUtils.Env, name: string, default: Option<bool>)
    requires Boolean(env, name, default).Ok?
    ensures EnvUtils.Boolean(env, name, default) == Ok(Boolean(env, name, default).value)
  {
    if name in env {
      var v := env[name];
      if v in EnvUtils.TrueStrings || v in EnvUtils.FalseStrings {
        assert v != [] && v[0] != ' ' && v[|v| - 1] != ' ';
        StripUnchanged(v);
      }
    }
  }

  /** A padded `" true"` is refused here, while the later `boolean` strips it and reads True. */
  lemma PaddedBooleanRefused(env: EnvUtils.Env, name: string)
    requires name in env && env[name] == " true"
    ensures Boolean(env, name, None).Err?
    ensures EnvUtils.Boolean(env, name, None) == Ok(true)
  {
    var v := env[name];
    assert |v| == 5 && v[0] == ' ';
    assert v !in EnvUtils.TrueStrings;
    assert v != "false";
    assert v !in EnvUtils.FalseStrings;
    StripPaddedTrue(v);
  }

  lemma StripPaddedTrue(v: string)
    requires v == " true"
    ensures Strip(v) == "true"
  {
    var t := v[1..];
    assert t == "true";
    assert IsSpace(v[0]);
    assert TrimStart(v) == TrimStart(t);
    assert !IsSpace(t[0]) && !IsSpace(t[3]);
    assert TrimStart(t) == t;
    assert TrimEnd(t) == t;
  }

  /** `integer`: accepted exactly when `str(int(v)) == v`, with no stripping. */
  function Integer(env: EnvUtils.Env, name: string, default: Option<int>): (r: Result<int, OldestError>)
    ensures name !in env ==> r == (if default.Some? then Ok(default.value) else Err(RuntimeError("Env " + name + " not set")))
    ensures name in env ==> forall n :: r == Ok(n) <==> env[name] == IntToString(n)
    ensures name in env && ParseInt(env[name]).None? ==> r == Err(ValueError(env[name]))
  {
    if name !in env then
      if default.Some? then Ok(default.value) else Err(RuntimeError("Env " + name + " not set"))
    else
      match ParseInt(env[name])
      case None =>
        assert forall n :: env[name] != IntToString(n) by {
          forall n ensures env[name] != IntToString(n) {
            IntToStringRoundTrip(n);
          }
        }
        Err(ValueError(env[name]))
      case Some(k) =>
        assert forall n :: env[name] == IntToString(n) ==> n == k by {
          forall n | env[name] == IntToString(n) ensures n == k {
            IntToStringRoundTrip(n);
          }
        }
        if IntToString(k) == env[name] then Ok(k)
        else Err(RuntimeError("Env " + name + " expect an integer but is set to '" + env[name] + "'"))
  }

  /** Whatever the oldest `integer` accepts, the later `integer` reads as the same number. */
  lemma IntegerStricterThanLater(env: EnvUtils.Env, name: string, default: Option<int>)
    requires Integer(env, name, default).Ok?
    ensures EnvUtils.Integer(env, name, default).Ok?
    ensures EnvUtils.Integer(env, name, default).value == Integer(env, name, default).value
  {
    if name in env {
      var n := Integer(env, name, default).value;
      IntToStringRoundTrip(n);
      EnvUtils.IntegerAcceptsCanonicalForm(env, name, default, n);
    }
  }

  /** `strings_list`: the raw `split(sep)` of a non-blank value. */
  function StringsList(env: EnvUtils.Env, name: string, sep: string): (r: Result<seq<string>, OldestError>)
    requires sep != []
    ensures r.Ok? <==> name in env && EnvUtils.HasText(env[name])
    ensures r.Ok? ==> Join(r.value, sep) == env[name] && forall k :: 0 <= k < |r.value| ==> Find(r.value[k], sep) == -1
  {
    match NotEmptyString(env, name)
    case Err(e) => Err(e)
    case Ok(v) =>
      JoinSplit(v, sep);
      SplitPiecesExcludeSep(v, sep);
      Ok(Split(v, sep))
  }

  /**
   * `creating_file`: creates the file named by the variable, refusing an
   * existing path. `osError` is the error text of a creation the operating
   * system refuses (for instance, a missing parent directory). On success
   * the result is None: the function has no return statement.
   */
  function CreatingFile(env: EnvUtils.Env, name: string, fs: EnvUtils.FileSystem, osError: Option<string>)
    : (out: (Result<Option<string>, OldestError>, EnvUtils.FileSystem))
    ensures out.0.Ok? ==> out.0.value == None
    ensures out.0.Ok? <==> name in env && EnvUtils.HasText(env[name]) && env[name] !in fs && osError.None?
    ensures out.0.Ok? ==> out.1 == fs[env[name] := EnvUtils.RegularFile]
    ensures out.0.Err? ==> out.1 == fs
  {
    match NotEmptyString(env, name)
    case Err(e) => (Err(e), fs)
    case Ok(path) =>
      if path in fs then (Err(RuntimeError("Env " + name + " set but path '" + path + " already exists")), fs)
      else if osError.Some? then
        (Err(RuntimeError("Env " + name + " set but failed to touch path '" + path + " : " + osError.value)), fs)
      else (Ok(None), fs[path := EnvUtils.RegularFile])
  }

  /** `empty_dir`: the path must exist, be a directory and be empty; on success the result is None. */
  function EmptyDir(env: EnvUtils.Env, name: string, fs: EnvUtils.FileSystem): (r: Result<Option<string>, OldestError>)
    ensures r.Ok? ==> r.value == None
    ensures r.Ok? <==> name in env && EnvUtils.HasText(env[name]) && env[name] in fs && fs[env[name]] == EnvUtils.Directory([])
  {
    match NotEmptyString(env, name)
    case Err(e) => Err(e)
    case Ok(path) =>
      if path !in fs then Err(RuntimeError("Env " + name + " set but path '" + path + "' does not exist"))
      else if !fs[path].Directory? then Err(RuntimeError("Env " + name + " set but path is not a dir"))
      else if fs[path].entries != [] then Err(RuntimeError("Env " + name + " is a directory but is not empty"))
      else Ok(None)
  }

  /** The oldest and the legacy `empty_dir` accept the same directories; only the legacy one returns the path. */
  lemma EmptyDirAgreesWithLegacy(env: EnvUtils.Env, name: string, fs: EnvUtils.FileSystem)
    ensures EmptyDir(env, name, fs).Ok? <==> EnvUtils.EmptyDir(env, name, fs).Ok?
    ensures EnvUtils.EmptyDir(env, name, fs).Ok? ==> EnvUtils.EmptyDir(env, name, fs).value == env[name]
  {
  }
}
