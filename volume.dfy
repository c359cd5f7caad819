/**
 * The directory side of `shred`: a volume maps path strings to files (a
 * file object stands for the underlying inode, so two paths may name the
 * same file), opening looks a path up, renaming moves an entry and removing
 * drops one. Also the construction of the temporary path the file is
 * renamed to before it is removed.
 *
 * Paths are plain strings. `Parent` is a simplified `Path::parent`: the text
 * before the last `/`, or the empty string for a bare name, and no parent at
 * all for the empty path or a path made only of `/`.
 */
module Volume {
  import opened Storage

  datatype Option<T> = None | Some(value: T)

  type Path = string

  /** Index of the last `/` in `p`, or -1 when there is none. */
  function LastSlash(p: Path): (r: int)
    ensures -1 <= r < |p|
    ensures r == -1 ==> forall k :: 0 <= k < |p| ==> p[k] != '/'
    ensures r >= 0 ==> p[r] == '/' && forall k :: r < k < |p| ==> p[k] != '/'
  {
    if |p| == 0 then -1
    else if p[|p| - 1] == '/' then |p| - 1
    else LastSlash(p[..|p| - 1])
  }

  /** Whether `p` has no final component: it is empty or made only of `/`. */
  predicate NoComponent(p: Path)
  {
    forall k :: 0 <= k < |p| ==> p[k] == '/'
  }

  /**
   * The parent directory of `p`: the text before its last `/`, or the empty
   * string when it has none, and no parent when `p` has no final component.
   */
  function Parent(p: Path): (r: Option<Path>)
    ensures r.None? <==> NoComponent(p)
    ensures r.Some? && (forall k :: 0 <= k < |p| ==> p[k] != '/') ==> r.value == ""
    ensures r.Some? && (exists k :: 0 <= k < |p| && p[k] == '/') ==>
      && |r.value| < |p| && p[..|r.value|] == r.value && p[|r.value|] == '/'
      && forall k :: |r.value| < k < |p| ==> p[k] != '/'
  {
    if NoComponent(p) then None
    else if LastSlash(p) < 0 then Some("")
    else Some(p[..LastSlash(p)])
  }

  /** `String::from_utf8_lossy(&[b'0'; 32])`. */
  function TempName(): (r: string)
    ensures |r| == 32 && forall k :: 0 <= k < 32 ==> r[k] == '0'
  {
    seq(32, _ => '0')
  }

  /** The last `/` of `dir + "/" + name` is the one joining them when `name` has none. */
  lemma {:induction false} LastSlashJoin(dir: Path, name: string)
    requires forall k :: 0 <= k < |name| ==> name[k] != '/'
    ensures LastSlash(dir + "/" + name) == |dir|
    ensures (dir + "/" + name)[..|dir|] == dir
    decreases |name|
  {
    var p := dir + "/" + name;
    if |name| > 0 {
      var shorter := name[..|name| - 1];
      assert p[|p| - 1] == name[|name| - 1];
      assert p[..|p| - 1] == dir + "/" + shorter;
      LastSlashJoin(dir, shorter);
    }
  }

  /**
   * `format!("{}/{}", parent, new_name)`, or `None` where `parent().unwrap()`
   * panics. Its final name is the temporary name. When `p` contains a `/`
   * the temporary path lies in the same directory as `p`; for a bare name it
   * lies in the root directory (see `TempPathShape`).
   */
  function TempPath(p: Path): (r: Option<Path>)
    ensures r.None? <==> NoComponent(p)
    ensures r.Some? ==> |r.value| > 32 && r.value[|r.value| - 32..] == TempName()
    ensures r.Some? && LastSlash(p) >= 0 ==> Parent(r.value) == Parent(p)
  {
    match Parent(p)
    case None => None
    case Some(dir) =>
      LastSlashJoin(dir, TempName());
      assert (dir + "/" + TempName())[|dir| + 1] != '/';
      Some(dir + "/" + TempName())
  }

  /**
   * Two files of one directory get the same temporary path, whatever their
   * names: renaming the second would replace the first.
   */
  lemma NameIndependent(dir: Path, n: string, m: string)
    requires |n| > 0 && forall k :: 0 <= k < |n| ==> n[k] != '/'
    requires |m| > 0 && forall k :: 0 <= k < |m| ==> m[k] != '/'
    ensures TempPath(dir + "/" + n) == TempPath(dir + "/" + m) == Some(dir + "/" + TempName())
  {
    LastSlashJoin(dir, n);
    LastSlashJoin(dir, m);
    assert (dir + "/" + n)[|dir| + 1] != '/';
    assert (dir + "/" + m)[|dir| + 1] != '/';
  }

  /**
   * The temporary path is the parent, a `/` and 32 `'0'` characters, and a
   * bare file name yields `"/"` followed by the zeros.
   */
  lemma TempPathShape(p: Path)
    ensures TempPath(p).Some? ==>
      && |TempPath(p).value| == |Parent(p).value| + 33
      && TempPath(p).value[..|Parent(p).value|] == Parent(p).value
      && TempPath(p).value[|Parent(p).value|] == '/'
      && forall k :: |Parent(p).value| < k < |TempPath(p).value| ==> TempPath(p).value[k] == '0'
    ensures !NoComponent(p) && (forall k :: 0 <= k < |p| ==> p[k] != '/') ==> TempPath(p) == Some("/" + TempName())
  {
    if TempPath(p).Some? {
      var d := Parent(p).value;
      var t := TempPath(p).value;
      assert t == d + "/" + TempName();
      forall k | |d| < k < |t| ensures t[k] == '0' {
        assert t[k] == TempName()[k - |d| - 1];
      }
      if LastSlash(p) < 0 {
        assert d == "" && t == "/" + TempName();
      }
    }
  }

  /**
   * The temporary path equals the original path exactly when the original
   * already has a parent directory and a final name of 32 zeros: the name is
   * not guaranteed to differ from the one it replaces.
   */
  lemma TempPathIsOriginal(p: Path)
    ensures TempPath(p) == Some(p) <==> LastSlash(p) >= 0 && p[LastSlash(p) + 1..] == TempName()
  {
    var i := LastSlash(p);
    if i >= 0 {
      assert p == p[..i] + "/" + p[i + 1..];
      assert !NoComponent(p) ==> TempPath(p) == Some(p[..i] + "/" + TempName());
      if NoComponent(p) {
        assert i == |p| - 1;
      } else if TempPath(p) == Some(p) {
        assert p[..i] + "/" + TempName() == p[..i] + "/" + p[i + 1..];
        assert TempName() == p[i + 1..];
      }
    } else if TempPath(p).Some? {
      assert TempPath(p).value[0] == '/';
      assert |p| > 0 && p[0] != '/';
    }
  }

  /** Whether paths `a` and `b` both name the same file. */
  predicate SameFile(files: map<Path, MemFile>, a: Path, b: Path)
  {
    a in files && b in files && files[a] == files[b]
  }

  class Volume {
    var files: map<Path, MemFile>

    constructor (entries: map<Path, MemFile>)
      ensures files == entries
    {
      files := entries;
    }

    /**
     * `OpenOptions::new().write(true).read(true).open(path)`: a missing path
     * is an error (the file is not created), and a present one may still be
     * refused. The new handle's cursor is at offset 0.
     */
    method Open(path: Path) returns (f: Option<MemFile>)
      modifies if path in files then {files[path]} else {}
      ensures path !in files ==> f.None?
      ensures f.Some? ==> path in files && f.value == files[path]
      ensures f.Some? ==> f.value.data == old(f.value.data) && f.value.cursor == 0 && f.value.log == old(f.value.log)
      ensures f.None? ==> path in files ==> unchanged(files[path])
    {
      if path !in files {
        return None;
      }
      var ok: bool := *;
      if !ok {
        return None;
      }
      var file := files[path];
      file.cursor := 0;
      f := Some(file);
    }

    /**
     * `fs::rename(from, to)`: the entry moves to `to`, replacing whatever
     * `to` named before. When both paths already name the same file (the same
     * path, or two hard links to one file) rename does nothing and succeeds,
     * as in POSIX `rename`.
     */
    method Rename(from: Path, to: Path) returns (ok: bool)
      modifies this
      ensures ok ==> from in old(files)
      ensures ok && SameFile(old(files), from, to) ==> files == old(files)
      ensures ok && !SameFile(old(files), from, to) ==> files == (old(files) - {from})[to := old(files)[from]]
      ensures !ok ==> files == old(files)
    {
      if from !in files {
        return false;
      }
      ok := *;
      if ok && !SameFile(files, from, to) {
        files := (files - {from})[to := files[from]];
      }
    }

    /** `fs::remove_file(path)`. */
    method RemoveFile(path: Path) returns (ok: bool)
      modifies this
      ensures ok ==> path in old(files) && files == old(files) - {path}
      ensures !ok ==> files == old(files)
    {
      if path !in files {
        return false;
      }
      ok := *;
      if ok {
        files := files - {path};
      }
    }
  }
}
