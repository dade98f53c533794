/**
 * Configuration read from environment variables, as the `env_utils` module
 * of the configuration package does it. The current tree and the legacy
 * tree share every parser here except the list parser: the current
 * `strings_list` strips items and drops blank ones, the legacy one returns
 * the raw split. The legacy tree also has `empty_dir`, which checks an
 * existing directory and never creates one.
 */
module EnvUtils {
  import opened Wrappers
  import opened Strings

  /** The process environment: variable name to value. */
  type Env = map<string, string>

  /** The exceptions the parsers raise, by class. */
  datatype EnvError =
    | EnvVarNotSet(name: string)
    | EnvVarEmpty(name: string)
    | BooleanParsingError(name: string, value: string)
    | IntegerParsingError(name: string, value: string)
    /** Raised by `int()` itself on a value that is not a decimal integer. */
    | ValueError(value: string)
    | FileNotFoundError(path: string)
    | NotADirectoryError(path: string)
    | DirNotEmptyError(name: string, path: string)
    /** The command line does not hold exactly one argument. */
    | UsageError(program: string)
    /** `sys.argv[0]` read from an empty command line. */
    | IndexError

  const TrueStrings: seq<string> := ["true", "True", "yes", "y"]
  const FalseStrings: seq<string> := ["false", "False", "no", "n"]

  /** No spelling is both true and false. */
  lemma SpellingsDisjoint(s: string)
    ensures !(s in TrueStrings && s in FalseStrings)
  {
    if s in TrueStrings {
      assert s[0] == 't' || s[0] == 'T' || s[0] == 'y';
    }
  }

  /** `v` holds at least one character that is not whitespace. */
  predicate HasText(v: string) {
    exists i :: 0 <= i < |v| && !IsSpace(v[i])
  }

  /** `not_empty_string`: the raw (unstripped) value of a variable that is set and not blank. */
  function NotEmptyString(env: Env, name: string): (r: Result<string, EnvError>)
    ensures name !in env ==> r == Err(EnvVarNotSet(name))
    ensures name in env && !HasText(env[name]) ==> r == Err(EnvVarEmpty(name))
    ensures name in env && HasText(env[name]) ==> r == Ok(env[name])
  {
    if name !in env then Err(EnvVarNotSet(name))
    else
      StripEmptyIffBlank(env[name]);
      if Strip(env[name]) == [] then Err(EnvVarEmpty(name)) else Ok(env[name])
  }

  /** `maybe_string`: the raw value when set, even an empty one, else the default. */
  function MaybeString(env: Env, name: string, default: Option<string>): (r: Option<string>)
    ensures name in env ==> r == Some(env[name])
    ensures name !in env ==> r == default
  {
    if name in env then Some(env[name]) else default
  }

  /** `boolean`: the stripped value must be one of the true or false spellings. */
  function Boolean(env: Env, name: string, default: Option<bool>): (r: Result<bool, EnvError>)
    ensures name !in env ==> r == (if default.Some? then Ok(default.value) else Err(EnvVarNotSet(name)))
    ensures name in env ==> (r == Ok(true) <==> Strip(env[name]) in TrueStrings)
    ensures name in env ==> (r == Ok(false) <==> Strip(env[name]) in FalseStrings)
    ensures name in env && r.Err? ==> r == Err(BooleanParsingError(name, env[name]))
  {
    if name !in env then
      if default.Some? then Ok(default.value) else Err(EnvVarNotSet(name))
    else if SpellingsDisjoint(Strip(env[name])); Strip(env[name]) in TrueStrings then Ok(true)
    else if Strip(env[name]) in FalseStrings then Ok(false)
    else Err(BooleanParsingError(name, env[name]))
  }

  /**
   * `integer`: `int(v)` must succeed (else its ValueError escapes) and
   * `str(int(v))` must equal `v.strip()`.
   */
  function Integer(env: Env, name: string, default: Option<int>): (r: Result<int, EnvError>)
    ensures name !in env ==> r == (if default.Some? then Ok(default.value) else Err(EnvVarNotSet(name)))
    ensures name in env && ParseInt(env[name]).None? ==> r == Err(ValueError(env[name]))
    ensures name in env && ParseInt(env[name]).Some? && r.Err? ==> r == Err(IntegerParsingError(name, env[name]))
  {
    if name !in env then
      if default.Some? then Ok(default.value) else Err(EnvVarNotSet(name))
    else
      match ParseInt(env[name])
      case None => Err(ValueError(env[name]))
      case Some(n) => if IntToString(n) != Strip(env[name]) then Err(IntegerParsingError(name, env[name])) else Ok(n)
  }

  /** A set variable is read as `n` exactly when its stripped value is the canonical decimal form of `n`. */
  lemma IntegerAcceptsCanonicalForm(env: Env, name: string, default: Option<int>, n: int)
    requires name in env
    ensures Integer(env, name, default) == Ok(n) <==> Strip(env[name]) == IntToString(n)
  {
    CanonicalIntForm(env[name], n);
  }

  /** A leading zero and an explicit plus sign are both refused, as parsing errors rather than ValueErrors. */
  lemma IntegerRejectsNonCanonical(env: Env, name: string)
    requires name in env && (env[name] == "05" || env[name] == "+5")
    ensures Integer(env, name, None) == Err(IntegerParsingError(name, env[name]))
  {
    var v := env[name];
    StripUnchanged(v);
    assert BodyValue("5") == 5 by {
      assert "5"[..0] == [];
    }
    if v == "05" {
      assert BodyValue("0") == 0 by {
        assert "0"[..0] == [];
      }
      assert v[..1] == "0";
      assert IsDecimalBody(v);
    } else {
      assert v[1..] == "5";
    }
    assert ParseInt(v) == Some(5);
    assert IntToString(5) == "5";
  }

  /** `[item.strip() for item in items if item.strip() != ""]` */
  function CleanItems(items: seq<string>): (r: seq<string>)
    ensures |r| <= |items|
  {
    if items == [] then []
    else (if Strip(items[0]) == [] then [] else [Strip(items[0])]) + CleanItems(items[1..])
  }

  /** Every cleaned item is non-empty and already stripped. */
  lemma {:induction false} CleanItemsStripped(items: seq<string>)
    ensures forall k :: 0 <= k < |CleanItems(items)| ==> CleanItems(items)[k] != [] && Strip(CleanItems(items)[k]) == CleanItems(items)[k]
  {
    if items != [] {
      CleanItemsStripped(items[1..]);
      StripIdempotent(items[0]);
    }
  }

  /** The cleaned list holds the stripped form of every non-blank item, and nothing else. */
  lemma {:induction false} CleanItemsMembers(items: seq<string>)
    ensures forall p :: p in items && Strip(p) != [] ==> Strip(p) in CleanItems(items)
    ensures forall x :: x in CleanItems(items) ==> exists p :: p in items && Strip(p) == x
  {
    if items != [] {
      CleanItemsMembers(items[1..]);
      var head := if Strip(items[0]) == [] then [] else [Strip(items[0])];
      assert CleanItems(items) == head + CleanItems(items[1..]);
      forall x | x in CleanItems(items)
        ensures exists p :: p in items && Strip(p) == x
      {
        if x in head {
          assert items[0] in items;
        } else {
          var p :| p in items[1..] && Strip(p) == x;
          assert p in items;
        }
      }
    }
  }

  /** Legacy `strings_list`: the raw `split(sep)` of a non-blank value. */
  function RawStringsList(env: Env, name: string, sep: string): (r: Result<seq<string>, EnvError>)
    requires sep != []
    ensures r.Ok? <==> NotEmptyString(env, name).Ok?
    ensures r.Ok? ==> Join(r.value, sep) == env[name]
  {
    match NotEmptyString(env, name)
    case Err(e) => Err(e)
    case Ok(v) => JoinSplit(v, sep); Ok(Split(v, sep))
  }

  /** Current `strings_list`: the split items, stripped, with the blank ones dropped. */
  function StringsList(env: Env, name: string, sep: string): (r: Result<seq<string>, EnvError>)
    requires sep != []
    ensures r.Err? ==> r == RawStringsList(env, name, sep)
    ensures r.Ok? ==> RawStringsList(env, name, sep).Ok? && r.value == CleanItems(RawStringsList(env, name, sep).value)
  {
    match NotEmptyString(env, name)
    case Err(e) => Err(e)
    case Ok(v) => Ok(CleanItems(Split(v, sep)))
  }

  /** Setting a variable to the separator alone passes an empty list (current) or two empty items (legacy). */
  lemma SeparatorAlone(env: Env, name: string, sep: string)
    requires sep != [] && HasText(sep)
    requires name in env && env[name] == sep
    ensures StringsList(env, name, sep) == Ok([])
    ensures RawStringsList(env, name, sep) == Ok(["", ""])
  {
    assert OccursAt(sep, sep, 0);
    assert Find(sep, sep) == 0;
    assert sep[..0] == [] && sep[|sep|..] == [];
    assert Find([], sep) == -1;
    assert Split([], sep) == [[]];
    var pieces := Split(sep, sep);
    assert pieces == [[], []];
    assert Strip([]) == [];
    assert CleanItems(pieces[1..]) == [];
    assert CleanItems(pieces) == [];
    assert NotEmptyString(env, name) == Ok(sep);
  }

  /** `maybe_strings_list`: the default (or `[]`) when unset, `strings_list` when set. */
  function MaybeStringsList(env: Env, name: string, default: Option<seq<string>>, sep: string): (r: Result<seq<string>, EnvError>)
    requires sep != []
    ensures name !in env ==> r == Ok(if default.Some? then default.value else [])
    ensures name in env && !HasText(env[name]) ==> r == Err(EnvVarEmpty(name))
    ensures name in env && HasText(env[name]) ==> r.Ok? && forall k :: 0 <= k < |r.value| ==> r.value[k] != [] && Strip(r.value[k]) == r.value[k]
  {
    match MaybeString(env, name, None)
    case None => Ok(if default.Some? then default.value else [])
    case Some(v) => CleanItemsStripped(Split(v, sep)); StringsList(env, name, sep)
  }

  /** `arg_task_name`: the single command-line argument. */
  function ArgTaskName(argv: seq<string>): (r: Result<string, EnvError>)
    ensures r.Ok? <==> |argv| == 2
    ensures r.Ok? ==> r.value == argv[1]
    ensures argv == [] ==> r == Err(IndexError)
  {
    if |argv| == 2 then Ok(argv[1])
    else if argv == [] then Err(IndexError)
    else Err(UsageError(argv[0]))
  }

  /** What the filesystem holds at a path; a path that is not a key does not exist. */
  datatype PathKind = RegularFile | Directory(entries: seq<string>)

  type FileSystem = map<string, PathKind>

  /** Legacy `empty_dir`: the path must already exist, be a directory and have no entries. */
  function EmptyDir(env: Env, name: string, fs: FileSystem): (r: Result<string, EnvError>)
    ensures r.Ok? <==> NotEmptyString(env, name).Ok? && env[name] in fs && fs[env[name]] == Directory([])
    ensures r.Ok? ==> r.value == env[name]
  {
    match NotEmptyString(env, name)
    case Err(e) => Err(e)
    case Ok(path) =>
      if path !in fs then Err(FileNotFoundError(path))
      else if !fs[path].Directory? then Err(NotADirectoryError(path))
      else if fs[path].entries != [] then Err(DirNotEmptyError(name, path))
      else Ok(path)
  }
}
