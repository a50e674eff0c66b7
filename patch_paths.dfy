/**
 * The argument handling of `getInstance()`'s `openPatch`, which accepts
 * either one full path or a filename and a directory, and hands the native
 * `_openPatch` a filename and a directory.
 *
 * Paths are split POSIX-style at the last '/': the basename is what follows
 * it, the dirname what precedes it ("/" for a root-level file, "." when
 * there is no '/').
 */
module PatchPaths {
  import opened Wrappers
  import opened JsValues

  /** The position of the last '/' in `p`, or -1 when there is none. */
  function LastSlash(p: string): (i: int)
    ensures -1 <= i < |p|
    ensures i >= 0 ==> p[i] == '/'
    ensures forall j | i < j < |p| :: p[j] != '/'
    decreases |p|
  {
    if p == [] then -1
    else if p[|p| - 1] == '/' then |p| - 1
    else LastSlash(p[..|p| - 1])
  }

  /** `path.basename`: what follows the last '/'. */
  function Basename(p: string): (b: string)
    ensures forall j | 0 <= j < |b| :: b[j] != '/'
    ensures (forall j | 0 <= j < |p| :: p[j] != '/') ==> b == p
  {
    p[LastSlash(p) + 1..]
  }

  /** `path.dirname`: what precedes the last '/', "/" at the root, "." without any '/'. */
  function Dirname(p: string): (d: string)
    ensures d != []
    ensures (forall j | 0 <= j < |p| :: p[j] != '/') ==> d == "."
    ensures |p| > 0 && p[0] == '/' && (forall j | 0 < j < |p| :: p[j] != '/') ==> d == "/"
    ensures LastSlash(p) > 0 ==> |d| < |p| && p[..|d|] == d && p[|d|] == '/' && (forall j | |d| < j < |p| :: p[j] != '/')
  {
    var i := LastSlash(p);
    if i == -1 then "." else if i == 0 then "/" else p[..i]
  }

  /** A path with a '/' past its first character is its dirname, a '/', and its basename. */
  lemma DirnameBasenameJoin(p: string)
    requires LastSlash(p) > 0
    ensures Dirname(p) + "/" + Basename(p) == p
  {
    var i := LastSlash(p);
    assert p == p[..i] + [p[i]] + p[i + 1..];
  }

  /** A path with no '/' names a file in the current directory. */
  lemma BareFilename(p: string)
    requires forall j | 0 <= j < |p| :: p[j] != '/'
    ensures Dirname(p) == "." && Basename(p) == p
  {
  }

  /**
   * `openPatch(...args)` as written: the one-argument form calls
   * `path.basename`, but the module never requires `path`, so it throws a
   * ReferenceError. Otherwise the first two arguments are destructured,
   * missing ones being undefined.
   */
  function OpenPatchArgsAsWritten(args: seq<JsValue>): (r: Result<(JsValue, JsValue)>)
    ensures r.Err? <==> |args| == 1
    ensures r.Ok? ==> r.value.0 == (if |args| > 0 then args[0] else Undefined)
    ensures r.Ok? ==> r.value.1 == (if |args| > 1 then args[1] else Undefined)
  {
    if |args| == 1 then Err("ReferenceError: path is not defined")
    else Ok((if |args| > 0 then args[0] else Undefined, if |args| > 1 then args[1] else Undefined))
  }

  /**
   * `openPatch(...args)` with `path` in scope: one string argument is split
   * into its basename and dirname; a non-string one makes `path.basename`
   * throw a TypeError. The two-argument form is unchanged.
   */
  function OpenPatchArgs(args: seq<JsValue>): (r: Result<(JsValue, JsValue)>)
    ensures |args| == 1 ==> (r.Ok? <==> args[0].Str?)
    ensures |args| == 1 && args[0].Str? ==> r == Ok((Str(Basename(args[0].s)), Str(Dirname(args[0].s))))
    ensures |args| != 1 ==> r == OpenPatchArgsAsWritten(args)
  {
    if |args| == 1 then
      match args[0]
      case Str(p) => Ok((Str(Basename(p)), Str(Dirname(p))))
      case _ => Err("TypeError: The \"path\" argument must be of type string")
    else OpenPatchArgsAsWritten(args)
  }

  /**
   * The documented call `openPatch('/patches/main.pd')` throws as written,
   * and with `path` in scope opens "main.pd" in "/patches".
   */
  lemma OneArgumentFormThrows()
    ensures OpenPatchArgsAsWritten([Str("/patches/main.pd")]).Err?
    ensures OpenPatchArgs([Str("/patches/main.pd")]) == Ok((Str("main.pd"), Str("/patches")))
  {
    var p := "/patches/main.pd";
    assert p[8] == '/';
    assert LastSlash(p) == 8;
    assert p[9..] == "main.pd" && p[..8] == "/patches";
  }

  /** Both calling conventions of the same patch give `_openPatch` the same filename and directory. */
  lemma OpenPatchConventionsAgree(dir: string, file: string)
    requires forall j | 0 <= j < |file| :: file[j] != '/'
    requires dir != [] && dir[|dir| - 1] != '/'
    ensures OpenPatchArgs([Str(dir + "/" + file)]) == OpenPatchArgs([Str(file), Str(dir)])
  {
    var p := dir + "/" + file;
    assert p[|dir|] == '/';
    assert p[|dir| + 1..] == file;
    assert LastSlash(p) == |dir|;
    assert p[..|dir|] == dir;
  }
}
