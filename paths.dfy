/** POSIX path handling used by ingestion and upload: `os.path.basename`,
    `os.path.join`, `pathlib.Path(p).suffix` and `str.lower()` on a suffix. */
module Paths {
  import opened Text

  /** `os.path.basename(path)`: everything after the last `/`. */
  function Basename(path: string): (r: string)
    ensures '/' !in r
    ensures IsSuffix(r, path)
  {
    if path == [] || path[|path| - 1] == '/' then []
    else Basename(path[..|path| - 1]) + [path[|path| - 1]]
  }

  /** The basename is the whole path, or it follows the path's last slash. */
  lemma {:induction false} BasenameFollowsSlash(path: string)
    ensures var r := Basename(path); |r| < |path| ==> path[|path| - |r| - 1] == '/'
  {
    if path != [] && path[|path| - 1] != '/' {
      var init := path[..|path| - 1];
      BasenameFollowsSlash(init);
      var r := Basename(init);
      if |r| < |init| {
        assert path[|init| - |r| - 1] == init[|init| - |r| - 1];
      }
    }
  }

  /** `s.rfind(c)`: the last position holding `c`, or -1. */
  function LastIndexOf(s: string, c: char): (i: int)
    ensures -1 <= i < |s|
    ensures i >= 0 ==> s[i] == c
    ensures forall k :: i < k < |s| ==> s[k] != c
  {
    if s == [] then -1
    else if s[|s| - 1] == c then |s| - 1
    else LastIndexOf(s[..|s| - 1], c)
  }

  /** `Path(path).suffix`: from the last dot of the final component, provided that dot
      is neither the component's first nor its last character; otherwise empty. */
  function Suffix(path: string): string {
    var name := Basename(path);
    var i := LastIndexOf(name, '.');
    if 0 < i < |name| - 1 then name[i..] else ""
  }

  /** `c.lower()` for an ASCII letter; every other character is kept. */
  function LowerChar(c: char): (d: char)
    ensures 'A' <= c <= 'Z' ==> 'a' <= d <= 'z' && d as int == c as int + 32
    ensures !('A' <= c <= 'Z') ==> d == c
  {
    if 'A' <= c <= 'Z' then (c as int + 32) as char else c
  }

  /** `s.lower()` on ASCII letters; every other character is kept. */
  function Lower(s: string): (r: string)
    ensures |r| == |s|
    ensures forall i :: 0 <= i < |s| ==> r[i] == LowerChar(s[i])
  {
    seq(|s|, i requires 0 <= i < |s| => LowerChar(s[i]))
  }

  /** A file name `stem + ext`, with a non-empty stem and an extension that is one dot
      followed by at least one dot-free character, has exactly `ext` as its suffix,
      whatever directory it sits in. */
  lemma {:induction false} SuffixOfFileName(dir: string, stem: string, ext: string)
    requires |stem| > 0 && '/' !in stem
    requires |ext| >= 2 && ext[0] == '.' && '.' !in ext[1..] && '/' !in ext
    ensures Suffix(dir + "/" + stem + ext) == ext
  {
    var path := dir + "/" + stem + ext;
    var name := stem + ext;
    assert path == (dir + "/") + name;
    assert '/' !in name by {
      forall k | 0 <= k < |name| ensures name[k] != '/' {
        if k < |stem| { assert name[k] == stem[k]; } else { assert name[k] == ext[k - |stem|]; }
      }
    }
    BasenameOfLast(dir + "/", name);
    assert Basename(path) == name;
    var i := LastIndexOf(name, '.');
    assert name[|stem|] == '.';
    forall k | |stem| < k < |name|
      ensures name[k] != '.'
    {
      assert name[k] == ext[1..][k - |stem| - 1];
    }
    assert i == |stem|;
    assert name[i..] == ext;
  }

  /** The basename of `dir + name` is `name` when `dir` ends with a slash. */
  lemma {:induction false} BasenameOfLast(dir: string, name: string)
    requires |dir| > 0 && dir[|dir| - 1] == '/'
    requires '/' !in name
    ensures Basename(dir + name) == name
    decreases |name|
  {
    if name == [] {
      assert dir + name == dir;
    } else {
      var n := |name| - 1;
      assert (dir + name)[..|dir + name| - 1] == dir + name[..n];
      BasenameOfLast(dir, name[..n]);
      assert name[..n] + [name[n]] == name;
    }
  }

  /** A final component whose only dot is its first character (`.pdf`, a hidden
      file) has no suffix. */
  lemma HiddenFileHasNoSuffix(dir: string, rest: string)
    requires '/' !in rest && '.' !in rest
    ensures Suffix(dir + "/." + rest) == ""
  {
    var name := "." + rest;
    BasenameOfLast(dir + "/", name);
    assert dir + "/." + rest == (dir + "/") + name;
    forall k | 0 < k < |name|
      ensures name[k] != '.'
    {
      assert name[k] == rest[k - 1];
    }
  }

  /** `os.path.join(directory, name)` for two POSIX paths: an absolute name replaces
      the directory; a relative one is placed under it, with one `/` added when the
      directory is non-empty and does not already end with one. */
  function Join(directory: string, name: string): (r: string)
    ensures IsSuffix(name, r)
    ensures |name| > 0 && name[0] == '/' ==> r == name
    ensures (name == [] || name[0] != '/') ==> IsPrefix(directory, r)
    ensures (name == [] || name[0] != '/') ==>
      |r| == |directory| + |name| + (if directory == [] || directory[|directory| - 1] == '/' then 0 else 1)
  {
    if |name| > 0 && name[0] == '/' then name
    else if directory == [] || directory[|directory| - 1] == '/' then directory + name
    else directory + "/" + name
  }

  /** A file name without a slash is the basename of the path it is joined to: the
      file is saved in the directory under its own name. */
  lemma JoinedName(directory: string, name: string)
    requires '/' !in name
    ensures Basename(Join(directory, name)) == name
  {
    if directory == [] {
      BasenameFollowsSlash(name);
    } else if directory[|directory| - 1] == '/' {
      BasenameOfLast(directory, name);
    } else {
      assert Join(directory, name) == (directory + "/") + name;
      BasenameOfLast(directory + "/", name);
    }
  }

  /** The path each of `names` is saved under in `directory`, in order. */
  function JoinAll(directory: string, names: seq<string>): (r: seq<string>)
    ensures |r| == |names|
    ensures forall i :: 0 <= i < |names| ==> r[i] == Join(directory, names[i]) && IsSuffix(names[i], r[i])
  {
    seq(|names|, i requires 0 <= i < |names| => Join(directory, names[i]))
  }
}
