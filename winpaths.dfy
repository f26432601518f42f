/**
 * Windows path handling the controllers and the workflow rely on:
 * `os.path.expanduser`, `os.path.join`, `os.path.isabs`, and picking the
 * first candidate path that exists.
 */
module WinPaths {
  import opened Wrappers
  import opened Text

  /** `os.path.join(location, name)` with Windows separators, for a location without a UNC prefix. */
  function NtJoin(location: string, name: string): (r: string)
    ensures StartsWith(r, location)
  {
    if location == [] || location[|location| - 1] in {'\\', '/'} || (|location| == 2 && location[1] == ':')
    then location + name
    else location + "\\" + name
  }

  /** `os.path.isabs`: a path rooted at a separator, with or without a drive letter. */
  predicate IsAbs(p: string)
  {
    (|p| >= 1 && p[0] in {'\\', '/'}) || (|p| >= 3 && p[1] == ':' && p[2] in {'\\', '/'})
  }

  /** `os.path.expanduser` for a path that starts with `~` followed by a separator. */
  function ExpandUser(path: string, home: string): string
  {
    if |path| >= 1 && path[0] == '~' then home + path[1..] else path
  }

  /** `for path in paths: if os.path.exists(path): return path`. */
  function FirstExisting(paths: seq<string>, existing: set<string>): (r: Option<string>)
    ensures r.None? <==> forall i :: 0 <= i < |paths| ==> paths[i] !in existing
    ensures r.Some? ==> exists i :: 0 <= i < |paths| && paths[i] == r.value && r.value in existing &&
                                   (forall j :: 0 <= j < i ==> paths[j] !in existing)
  {
    if paths == [] then None
    else if paths[0] in existing then Some(paths[0])
    else
      var r := FirstExisting(paths[1..], existing);
      if r.Some? then
        var i :| 0 <= i < |paths[1..]| && paths[1..][i] == r.value && r.value in existing &&
                 (forall j :: 0 <= j < i ==> paths[1..][j] !in existing);
        assert paths[i + 1] == r.value;
        r
      else r
  }

  /** The loop that walks candidate paths and stops at the first that exists. */
  method PickFirstExisting(paths: seq<string>, existing: set<string>) returns (r: Option<string>)
    ensures r == FirstExisting(paths, existing)
  {
    var j := 0;
    while j < |paths|
      invariant 0 <= j <= |paths|
      invariant FirstExisting(paths, existing) == FirstExisting(paths[j..], existing)
    {
      if paths[j] in existing {
        return Some(paths[j]);
      }
      assert paths[j..][1..] == paths[j + 1..];
      j := j + 1;
    }
    r := None;
  }
}
