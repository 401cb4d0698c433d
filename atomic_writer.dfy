/**
 * `atomic_file_writer`: a file is written under a hidden temporary name next
 * to its target, and on `close` either renamed onto the target or, when the
 * target already reads the same, deleted (`ignored()` then says so).
 *
 * The file system is a map from path to file; text-mode reads translate
 * line endings as Python's universal newlines do.
 */
module AtomicWriter {
  import opened Wrappers

  /** A regular file: its stored characters, permission bits and owner; or
      an entry that `open(path).read()` cannot read as text (a directory,
      a file without read permission, bytes that do not decode). */
  datatype File = File(content: string, mode: int, uid: int, gid: int) | Unreadable

  /** The mode a new file gets unless another is given: 0o644. */
  const DefaultMode: int := 420

  class FileSystem {
    var files: map<string, File>

    constructor(files0: map<string, File>)
      ensures files == files0
    {
      files := files0;
    }
  }

  /** What a text-mode read returns: `\r\n` and a lone `\r` become `\n`. */
  function Translate(s: string): (r: string)
    ensures |r| <= |s|
    ensures '\r' !in r
  {
    if |s| == 0 then ""
    else if s[0] == '\r' then
      if |s| > 1 && s[1] == '\n' then "\n" + Translate(s[2..]) else "\n" + Translate(s[1..])
    else [s[0]] + Translate(s[1..])
  }

  /** A text that holds no `\r` reads as itself. */
  lemma {:induction false} TranslateNoReturn(s: string)
    requires '\r' !in s
    ensures Translate(s) == s
  {
    if |s| > 0 {
      assert '\r' !in s[1..] by { assert forall c :: c in s[1..] ==> c in s; }
      TranslateNoReturn(s[1..]);
    }
  }

  /** Reading is idempotent: a text read again reads the same. */
  lemma TranslateIdempotent(s: string)
    ensures Translate(Translate(s)) == Translate(s)
  {
    TranslateNoReturn(Translate(s));
  }

  /** The text with each `\n` written as `\r\n`, as a Windows editor saves it. */
  function ToCrLf(s: string): string {
    if |s| == 0 then ""
    else if s[0] == '\n' then "\r\n" + ToCrLf(s[1..])
    else [s[0]] + ToCrLf(s[1..])
  }

  /** A text and its `\r\n` form read the same, so one replaces the other
      only as a duplicate. */
  lemma {:induction false} CrLfReadsSame(s: string)
    requires '\r' !in s
    ensures Translate(ToCrLf(s)) == Translate(s)
  {
    if |s| > 0 {
      assert '\r' !in s[1..] by { assert forall c :: c in s[1..] ==> c in s; }
      CrLfReadsSame(s[1..]);
      var t := ToCrLf(s);
      if s[0] == '\n' {
        assert t[2..] == ToCrLf(s[1..]);
      } else {
        assert t[1..] == ToCrLf(s[1..]);
      }
    }
  }

  /** `os.path.basename`: what follows the last `/`. */
  function Basename(p: string): (r: string)
    ensures |r| <= |p| && '/' !in r
  {
    if |p| == 0 || p[|p| - 1] == '/' then ""
    else Basename(p[..|p| - 1]) + [p[|p| - 1]]
  }

  predicate AllSlashes(s: string) { forall i :: 0 <= i < |s| ==> s[i] == '/' }

  /** The text up to the last `/` without its trailing slashes. */
  function TrimSlashes(h: string): (r: string)
    ensures |r| <= |h|
  {
    if |h| > 0 && h[|h| - 1] == '/' then TrimSlashes(h[..|h| - 1]) else h
  }

  /** `os.path.dirname`: up to the last `/`, trailing slashes dropped unless
      it is all slashes. */
  function Dirname(p: string): string {
    var head := p[..|p| - |Basename(p)|];
    if head != [] && !AllSlashes(head) then TrimSlashes(head) else head
  }

  /** `os.path.join(d, name)` for a relative name. */
  function JoinPath(d: string, name: string): string {
    if d == [] || d[|d| - 1] == '/' then d + name else d + "/" + name
  }

  /** The name `NamedTemporaryFile(prefix='.%s.' % basename, dir=dirname)`
      creates; `random` stands for its random characters. */
  function TempPath(path: string, random: string): string {
    JoinPath(Dirname(path), "." + Basename(path) + "." + random)
  }

  lemma {:induction false} BasenameAppend(a: string, x: string)
    requires '/' !in x
    requires a == [] || a[|a| - 1] == '/'
    ensures Basename(a + x) == x
  {
    if |x| > 0 {
      var s := a + x;
      assert s[..|s| - 1] == a + x[..|x| - 1];
      assert '/' !in x[..|x| - 1] by { assert forall c :: c in x[..|x| - 1] ==> c in x; }
      assert s[|s| - 1] == x[|x| - 1];
      BasenameAppend(a, x[..|x| - 1]);
    } else {
      assert a + x == a;
    }
  }

  lemma BasenameOfJoin(d: string, name: string)
    requires '/' !in name
    ensures Basename(JoinPath(d, name)) == name
  {
    if d == [] || d[|d| - 1] == '/' {
      BasenameAppend(d, name);
    } else {
      assert d + "/" + name == (d + "/") + name;
      BasenameAppend(d + "/", name);
    }
  }

  /** The temporary file never is the target: its base name is longer. */
  lemma TempIsNotTarget(path: string, random: string)
    requires '/' !in random
    ensures TempPath(path, random) != path
    ensures Basename(TempPath(path, random)) == "." + Basename(path) + "." + random
  {
    var name := "." + Basename(path) + "." + random;
    assert '/' !in name;
    BasenameOfJoin(Dirname(path), name);
  }

  /** `close` gets past its reads: the temporary file exists and, when the
      target exists, both read as text. */
  predicate CanCommit(files: map<string, File>, path: string, temp: string) {
    temp in files && (path in files ==> files[path].File? && files[temp].File?)
  }

  /** The file system after `close` and whether the target was a duplicate,
      when its reads succeed. The temporary file is then gone; a duplicate
      leaves the target as it was, otherwise the target becomes the written
      file with its mode and owner; any other file is untouched. */
  function Commit(files: map<string, File>, path: string, temp: string): (r: (map<string, File>, bool))
    requires CanCommit(files, path, temp)
    ensures temp != path ==> temp !in r.0 && path in r.0
    ensures r.1 <==> path in files && Translate(files[path].content) == Translate(files[temp].content)
    ensures temp != path && r.1 ==> r.0[path] == files[path]
    ensures temp != path && !r.1 ==> r.0[path] == files[temp]
    ensures temp != path && files[temp].File? ==>
              r.0[path].File? && Translate(r.0[path].content) == Translate(files[temp].content)
    ensures forall p :: p != temp && p != path ==> (p in r.0 <==> p in files)
    ensures forall p :: p != temp && p != path && p in files ==> r.0[p] == files[p]
  {
    var duplicate := path in files && Translate(files[path].content) == Translate(files[temp].content);
    if duplicate then (files - {temp}, true)
    else ((files - {temp})[path := files[temp]], false)
  }

  class AtomicFileWriter {
    const fs: FileSystem
    /** The target path (`os.path.abspath(path)`). */
    const path: string
    /** The temporary file's path. */
    const temp: string
    var isOpen: bool
    var isDuplicate: bool

    /** The temporary file is not the target, and only a closed writer can
        have found a duplicate. */
    predicate Valid()
      reads this
    {
      temp != path && (isDuplicate ==> !isOpen)
    }

    /** `atomic_file_writer(path, mode, uid=uid, gid=gid)`: creates the empty
        temporary file with the given mode and owner. `random` is the
        temporary name's random part; `uid`/`gid` default to the caller's
        own ids, passed as `procUid`/`procGid`. */
    constructor(fs: FileSystem, path: string, random: string, mode: int,
                uid: Option<int>, gid: Option<int>, procUid: int, procGid: int)
      requires '/' !in random
      requires TempPath(path, random) !in fs.files
      modifies fs
      ensures Valid()
      ensures this.fs == fs && this.path == path && temp == TempPath(path, random)
      ensures isOpen && !isDuplicate
      ensures fs.files == old(fs.files)[temp := File("", mode, if uid.Some? then uid.value else procUid,
                                                      if gid.Some? then gid.value else procGid)]
    {
      this.fs := fs;
      this.path := path;
      temp := TempPath(path, random);
      isOpen := true;
      isDuplicate := false;
      TempIsNotTarget(path, random);
      var u := if uid.None? then procUid else uid.value;
      var g := if gid.None? then procGid else gid.value;
      fs.files := fs.files[TempPath(path, random) := File("", mode, u, g)];
    }

    /** `write(data)` on the temporary file: false (ValueError) once closed.
        A temporary file removed or replaced meanwhile takes the data
        nowhere. */
    method Write(data: string) returns (ok: bool)
      modifies fs
      ensures ok == isOpen
      ensures ok && temp in old(fs.files) && old(fs.files)[temp].File? ==>
                fs.files == old(fs.files)[temp := old(fs.files)[temp].(content := old(fs.files)[temp].content + data)]
      ensures !(ok && temp in old(fs.files) && old(fs.files)[temp].File?) ==> fs.files == old(fs.files)
    {
      ok := isOpen;
      if ok && temp in fs.files && fs.files[temp].File? {
        var f := fs.files[temp];
        fs.files := fs.files[temp := f.(content := f.content + data)];
      }
    }

    /** `close()`: false where it raises, because the temporary file is gone
        (a second close) or the existing target or the temporary file cannot
        be read as text; nothing changes then, and the duplicate flag is
        cleared first all the same. */
    method Close() returns (ok: bool)
      requires Valid()
      modifies this, fs
      ensures Valid() && !isOpen
      ensures ok <==> CanCommit(old(fs.files), path, temp)
      ensures ok ==> (fs.files, isDuplicate) == Commit(old(fs.files), path, temp)
      ensures !ok ==> fs.files == old(fs.files) && !isDuplicate
    {
      isOpen := false;
      isDuplicate := false;
      if temp !in fs.files {
        return false;
      }
      if path in fs.files {
        if fs.files[path].Unreadable? || fs.files[temp].Unreadable? {
          return false;
        }
        var prevCont := Translate(fs.files[path].content);
        var newCont := Translate(fs.files[temp].content);
        if prevCont == newCont {
          isDuplicate := true;
        }
      }
      if !isDuplicate {
        fs.files := (fs.files - {temp})[path := fs.files[temp]];
      } else {
        fs.files := fs.files - {temp};
      }
      return true;
    }

    /** `ignored()`: whether the last close found the target a duplicate;
        never while the file is still open. */
    function Ignored(): (r: bool)
      reads this
      requires Valid()
      ensures r ==> !isOpen
    {
      isDuplicate
    }
  }
}
