/** pkg/util/storage.go: the durable store. Keys are file paths under a base
    directory (left implicit here: a key is its own path); a table of pending
    keys refuses a key while it or an ancestor or descendant of it is in use;
    Create writes a file, or only a directory for empty contents, and Get
    reads one back. */
module Storage {
  import opened Base
  import opened Strs

  /** What a path names on disk. */
  datatype Node = File(contents: Bytes) | Dir

  /** The file system under the base directory, by path. */
  type Fs = map<string, Node>

  /** The errors os reports for a path through a regular file and for opening a
      directory for writing. */
  const ErrNotDir := FsFailed("not a directory")
  const ErrIsDir := FsFailed("is a directory")

  /** The proper ancestors of a path: its prefixes that end just before a '/'. */
  function Ancestors(p: string): set<string> {
    set i | 0 < i < |p| && p[i] == '/' :: p[..i]
  }

  /** Some ancestor of p is a regular file in fs. */
  predicate ThroughFile(fs: Fs, p: string) {
    exists a :: a in Ancestors(p) && a in fs && fs[a].File?
  }

  /** Every ancestor of p is a directory, so p can be reached. */
  predicate Reachable(fs: Fs, p: string) {
    forall a :: a in Ancestors(p) ==> a in fs && fs[a].Dir?
  }

  datatype StatResult = Found(node: Node) | NotExist | StatFailed(error: Error)

  /** os.Stat: "" is the base directory itself. */
  function Stat(fs: Fs, p: string): (r: StatResult)
    ensures r.NotExist? ==> p != "" && !(p in fs && Reachable(fs, p))
    ensures r.Found? && p != "" ==> p in fs && fs[p] == r.node && Reachable(fs, p)
  {
    if p == "" then Found(Dir)
    else if ThroughFile(fs, p) then StatFailed(ErrNotDir)
    else if p in fs && Reachable(fs, p) then Found(fs[p])
    else NotExist
  }

  /** A path through a regular file is the not-a-directory error, never
      NotExist; a path reached through directories alone never fails. */
  lemma StatThroughFile(fs: Fs, p: string)
    requires p != ""
    ensures ThroughFile(fs, p) <==> Stat(fs, p) == StatFailed(ErrNotDir)
    ensures !ThroughFile(fs, p) ==> !Stat(fs, p).StatFailed?
  {
  }

  /** os.MkdirAll: p and its missing ancestors become directories; fails when
      p or an ancestor is a regular file. */
  function MkdirAll(fs: Fs, p: string): (r: Result<Fs>)
    ensures r.Ok? && p != "" ==> forall a :: a in Ancestors(p) + {p} ==> a in r.value && r.value[a] == Dir
    ensures r.Ok? ==> forall q :: q in fs ==> q in r.value && (fs[q].File? ==> r.value[q] == fs[q])
  {
    if p == "" then Ok(fs)
    else if ThroughFile(fs, p) || (p in fs && fs[p].File?) then Err(ErrNotDir)
    else Ok(fs + map a | a in Ancestors(p) + {p} :: Dir)
  }

  /** The directory of a key: what filepath.Split gives, without its final '/'. */
  function ParentDir(key: string): (d: string)
    ensures |d| < |key| || key == ""
  {
    var dir := SplitPath(key).0;
    if dir == "" then "" else dir[..|dir| - 1]
  }

  /** The ancestors of a key are its parent directory and the parent's ancestors. */
  lemma AncestorsOfKey(key: string)
    ensures var pa := ParentDir(key);
      Ancestors(key) == (if pa == "" then {} else Ancestors(pa) + {pa})
  {
    var i := LastSlash(key);
    var pa := ParentDir(key);
    if i <= 0 {
      assert Ancestors(key) == {};
    } else {
      assert pa == key[..i];
      forall x | x in Ancestors(key) ensures x in Ancestors(pa) + {pa} {
        var j :| 0 < j < |key| && key[j] == '/' && x == key[..j];
        if j < i {
          assert pa[j] == '/' && pa[..j] == x;
        }
      }
      forall x | x in Ancestors(pa) ensures x in Ancestors(key) {
        var j :| 0 < j < |pa| && pa[j] == '/' && x == pa[..j];
        assert key[j] == '/' && key[..j] == x;
      }
      assert key[i] == '/';
      assert pa in Ancestors(key);
    }
  }

  /** os.OpenFile with O_CREATE|O_TRUNC followed by the write: the file holds
      exactly contents afterwards. */
  function WriteFile(fs: Fs, key: string, contents: Bytes): Result<Fs> {
    if key in fs && fs[key].Dir? then Err(ErrIsDir) else Ok(fs[key := File(contents)])
  }

  /** create: make the key's directory when it is missing, then write the file. */
  function CreateFile(fs: Fs, key: string, contents: Bytes): Result<Fs> {
    var dir := ParentDir(key);
    match Stat(fs, dir)
    case StatFailed(e) => Err(e)
    case NotExist =>
      (match MkdirAll(fs, dir)
       case Err(e) => Err(e)
       case Ok(fs1) => WriteFile(fs1, key, contents))
    case Found(n) => if n.File? then Err(ErrNotDir) else WriteFile(fs, key, contents)
  }

  /** Create once the key is locked: a directory only for empty contents
      (a missing path is made, an existing directory is kept, a regular file
      is ErrKeyHasNoContent), otherwise the file. */
  function CreateFs(fs: Fs, key: string, contents: Bytes): Result<Fs> {
    if |contents| == 0 then
      match Stat(fs, key)
      case StatFailed(e) => Err(e)
      case NotExist => MkdirAll(fs, key)
      case Found(n) => if n.Dir? then Ok(fs) else Err(ErrKeyHasNoContent)
    else CreateFile(fs, key, contents)
  }

  /** get: a missing path is ErrStorageNotFound, a directory has no content,
      a regular file yields its bytes; a failing stat is returned as is. */
  function GetFs(fs: Fs, path: string): (r: Result<Bytes>)
    ensures r.Ok? ==> path in fs && fs[path] == File(r.value)
    ensures path == "" ==> r == Err(ErrKeyIsEmpty)
    ensures path != "" && Stat(fs, path).StatFailed? ==> r == Err(Stat(fs, path).error)
    ensures path != "" && Stat(fs, path).NotExist? ==> r == Err(ErrStorageNotFound)
    ensures path != "" && Stat(fs, path) == Found(Dir) ==> r == Err(ErrKeyHasNoContent)
    ensures path != "" && path in fs && fs[path].File? && Reachable(fs, path) ==> r == Ok(fs[path].contents)
  {
    if path == "" then Err(ErrKeyIsEmpty)
    else
      match Stat(fs, path)
      case StatFailed(e) => Err(e)
      case NotExist => Err(ErrStorageNotFound)
      case Found(n) => if n.File? then Ok(n.contents) else Err(ErrKeyHasNoContent)
  }

  /** The check lockKey makes against one pending key: the longer of the two
      contains the shorter followed by '/'. */
  predicate Conflicts(key: string, pendingKey: string) {
    if |key| > |pendingKey| then Contains(key, pendingKey + "/")
    else Contains(pendingKey, key + "/")
  }

  /** lockKey succeeds: the key is not pending and conflicts with no pending key. */
  predicate Lockable(pending: set<string>, key: string) {
    key !in pending && forall p :: p in pending ==> !Conflicts(key, p)
  }

  /** The conflict check does not depend on which key is the pending one. */
  lemma ConflictsSymmetric(a: string, b: string)
    ensures Conflicts(a, b) <==> Conflicts(b, a)
  {
    if |a| == |b| {
      NoLongerInside(b, a + "/");
      NoLongerInside(a, b + "/");
    }
  }

  /** A string never contains a longer one. */
  lemma NoLongerInside(s: string, t: string)
    requires |t| > |s|
    ensures !Contains(s, t)
  {
    ContainsAt(s, t);
  }

  /** An ancestor and its descendant always conflict, whichever is pending. */
  lemma AncestorConflicts(ancestor: string, key: string)
    requires HasPrefix(key, ancestor + "/")
    ensures Conflicts(key, ancestor) && Conflicts(ancestor, key)
  {
    ConflictsSymmetric(key, ancestor);
  }

  /** The check is wider than ancestry: a key that merely contains a pending
      key followed by '/' is refused too. */
  lemma UnrelatedKeysMayConflict()
    ensures !HasPrefix("xa/b", "a/") && Conflicts("xa/b", "a")
  {
    assert "a" + "/" == "a/";
    assert "xa/b"[..2][0] != "a/"[0];
    assert OccursAt("xa/b", "a/", 1);
    ContainsAt("xa/b", "a/");
  }

  /** No two pending keys conflict. */
  ghost predicate PendingApart(pending: set<string>) {
    forall a, b :: a in pending && b in pending && a != b ==> !Conflicts(a, b)
  }

  /** Adding a lockable key keeps the pending keys apart. */
  lemma LockKeepsApart(pending: set<string>, key: string)
    requires PendingApart(pending) && Lockable(pending, key)
    ensures PendingApart(pending + {key})
  {
    forall a, b | a in pending + {key} && b in pending + {key} && a != b
      ensures !Conflicts(a, b)
    {
      if b == key {
        ConflictsSymmetric(a, b);
      }
    }
  }

  /** Create, from the pending keys and the disk before the call. */
  function CreateOp(pending: set<string>, fs: Fs, key: string, contents: Bytes): Result<Fs> {
    if key == "" then Err(ErrKeyIsEmpty)
    else if !Lockable(pending, key) then Err(ErrStorageAccessConflict)
    else CreateFs(fs, key, contents)
  }

  /** Get, from the pending keys and the disk. */
  function GetOp(pending: set<string>, fs: Fs, key: string): Result<Bytes> {
    if key == "" then Err(ErrKeyIsEmpty)
    else if !Lockable(pending, key) then Err(ErrStorageAccessConflict)
    else GetFs(fs, key)
  }

  /** The directory of a key becomes a directory, with its ancestors. */
  lemma {:induction false} DirOfKeyIsDir(fs: Fs, key: string, fs1: Fs)
    requires key != ""
    requires || (Stat(fs, ParentDir(key)) == Found(Dir) && fs1 == fs)
             || (Stat(fs, ParentDir(key)) == NotExist && MkdirAll(fs, ParentDir(key)) == Ok(fs1))
    ensures forall a :: a in Ancestors(key) ==> a in fs1 && fs1[a] == Dir
  {
    var pa := ParentDir(key);
    AncestorsOfKey(key);
  }

  /** A file created with some contents reads back as exactly those contents:
      the write truncates whatever was there. */
  lemma {:induction false} CreateThenGet(pending: set<string>, fs: Fs, key: string, contents: Bytes)
    requires |contents| > 0
    requires CreateOp(pending, fs, key, contents).Ok?
    ensures GetOp(pending, CreateOp(pending, fs, key, contents).value, key) == Ok(contents)
  {
    var pa := ParentDir(key);
    var fs1 := if Stat(fs, pa).NotExist? then MkdirAll(fs, pa).value else fs;
    DirOfKeyIsDir(fs, key, fs1);
    var fs2 := CreateOp(pending, fs, key, contents).value;
    assert fs2 == fs1[key := File(contents)];
    forall a | a in Ancestors(key) ensures a in fs2 && fs2[a] == Dir {
      assert a != key;
    }
    assert Reachable(fs2, key) && !ThroughFile(fs2, key);
  }

  /** Create with empty contents on a missing path leaves a directory, which
      Get reports as having no content. */
  lemma {:induction false} CreateEmptyThenGet(pending: set<string>, fs: Fs, key: string)
    requires CreateOp(pending, fs, key, []).Ok?
    ensures GetOp(pending, CreateOp(pending, fs, key, []).value, key) == Err(ErrKeyHasNoContent)
  {
    var fs2 := CreateOp(pending, fs, key, []).value;
    if Stat(fs, key).NotExist? {
      assert Reachable(fs2, key) && !ThroughFile(fs2, key);
    }
  }

  /** diskStorage: the pending-key table and the disk under the base directory. */
  class DiskStorage {
    var pending: set<string>
    var fs: Fs

    ghost predicate Valid()
      reads this
    {
      PendingApart(pending)
    }

    /** NewDiskStorage over an empty directory. */
    constructor ()
      ensures Valid() && pending == {} && fs == map[]
    {
      pending, fs := {}, map[];
    }

    /** lockKey: refuses a pending key and any key that conflicts with one;
        otherwise adds exactly that key. */
    method LockKey(key: string) returns (ok: bool)
      requires Valid()
      modifies this`pending
      ensures Valid()
      ensures ok <==> Lockable(old(pending), key)
      ensures pending == if ok then old(pending) + {key} else old(pending)
    {
      if key in pending {
        return false;
      }
      var unvisited := pending;
      while unvisited != {}
        invariant unvisited <= pending
        invariant forall p :: p in pending && p !in unvisited ==> !Conflicts(key, p)
        decreases unvisited
      {
        var pendingKey :| pendingKey in unvisited;
        if |key| > |pendingKey| {
          if Contains(key, pendingKey + "/") {
            return false;
          }
        } else {
          if Contains(pendingKey, key + "/") {
            return false;
          }
        }
        unvisited := unvisited - {pendingKey};
      }
      LockKeepsApart(pending, key);
      pending := pending + {key};
      ok := true;
    }

    /** unLockKey: removes only that key. */
    method UnLockKey(key: string)
      requires Valid()
      modifies this`pending
      ensures Valid()
      ensures pending == old(pending) - {key}
    {
      pending := pending - {key};
    }

    /** Create: the pending table is as before on every path out. */
    method Create(key: string, contents: Bytes) returns (err: Option<Error>)
      requires Valid()
      modifies this
      ensures Valid() && pending == old(pending)
      ensures var r := CreateOp(old(pending), old(fs), key, contents);
        && (r.Err? ==> err == Some(r.error) && fs == old(fs))
        && (r.Ok? ==> err.None? && fs == r.value)
    {
      if key == "" {
        return Some(ErrKeyIsEmpty);
      }
      var locked := LockKey(key);
      if !locked {
        return Some(ErrStorageAccessConflict);
      }
      var r: Result<Fs>;
      if |contents| == 0 {
        match Stat(fs, key)
        case StatFailed(e) => r := Err(e);
        case NotExist => r := MkdirAll(fs, key);
        case Found(n) => r := if n.Dir? then Ok(fs) else Err(ErrKeyHasNoContent);
      } else {
        r := CreateFile(fs, key, contents);
      }
      if r.Ok? {
        fs := r.value;
        err := None;
      } else {
        err := Some(r.error);
      }
      UnLockKey(key);
    }

    /** Get: the pending table is as before on every path out. */
    method Get(key: string) returns (r: Result<Bytes>)
      requires Valid()
      modifies this`pending
      ensures Valid() && pending == old(pending)
      ensures r == GetOp(old(pending), fs, key)
    {
      if key == "" {
        return Err(ErrKeyIsEmpty);
      }
      var locked := LockKey(key);
      if !locked {
        return Err(ErrStorageAccessConflict);
      }
      r := GetFs(fs, key);
      UnLockKey(key);
    }
  }

  const TmpPrefix := "tmp_"

  /** isTmpFile: the file part of the path starts with "tmp_". */
  predicate IsTmpFile(path: string) {
    var (dir, file) := SplitPath(path);
    HasPrefix(file, TmpPrefix)
  }

  /** A path in a directory is a temporary file exactly when its name starts
      with "tmp_"; the directory's own names do not matter. */
  lemma IsTmpFileOf(dir: string, name: string)
    requires dir == "" || dir[|dir| - 1] == '/'
    requires '/' !in name
    ensures IsTmpFile(dir + name) <==> HasPrefix(name, TmpPrefix)
  {
    SplitPathOf(dir, name);
  }

  /** getKey: "tmp_" is removed from the file part only; the directory is kept. */
  function GetKey(tmpKey: string): string {
    var (dir, file) := SplitPath(tmpKey);
    var name := TrimPrefix(file, TmpPrefix);
    if name != "" then dir + name
    else if |dir| <= 1 then dir
    else dir[..|dir| - 1]
  }

  /** The key of a temporary file is its directory and its name without "tmp_",
      and that key is no longer a temporary file unless the name was "tmp_tmp_...". */
  lemma GetKeyOfTmp(dir: string, name: string)
    requires CleanDir(dir)
    requires PathElement(name) && name != ""
    ensures IsTmpFile(dir + TmpPrefix + name)
    ensures GetKey(dir + TmpPrefix + name) == dir + name
    ensures SplitPath(GetKey(dir + TmpPrefix + name)) == (dir, name)
    ensures IsTmpFile(GetKey(dir + TmpPrefix + name)) <==> HasPrefix(name, TmpPrefix)
  {
    assert dir + TmpPrefix + name == dir + (TmpPrefix + name);
    SplitPathOf(dir, TmpPrefix + name);
    assert (TmpPrefix + name)[4..] == name;
    SplitPathOf(dir, name);
  }

  /** A path that is not a temporary file keeps its key. */
  lemma GetKeyOfPlain(dir: string, name: string)
    requires CleanDir(dir)
    requires PathElement(name) && name != "" && !HasPrefix(name, TmpPrefix)
    ensures GetKey(dir + name) == dir + name
  {
    SplitPathOf(dir, name);
  }
}
