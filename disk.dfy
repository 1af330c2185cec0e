/** The part of the file system the tools touch: regular files with their
    text, directories, and the working directory relative paths are taken
    from. A `Store` is a snapshot; `FileSystem` holds the live state that the
    operations change in place. Failures to write or to create a directory
    are not modelled; reading something that is not a regular file fails. */
module Disk {
  import opened Wrappers
  import opened Paths

  datatype Store = Store(files: map<Path, string>, dirs: set<Path>, cwd: Path) {
    /** The absolute path a (possibly relative) path names. */
    function Abs(p: Path): Path {
      Resolve(cwd, p)
    }

    /** `path.exists()`: a file or a directory. */
    predicate Exists(p: Path) {
      Abs(p) in files || Abs(p) in dirs
    }

    predicate IsFile(p: Path) {
      Abs(p) in files
    }

    /** `path.read_text()`; `None` where it raises. */
    function Read(p: Path): (r: Option<string>)
      ensures r.Some? <==> IsFile(p)
    {
      if Abs(p) in files then Some(files[Abs(p)]) else None
    }

    /** `path.write_text(text)`. */
    function Write(p: Path, text: string): (r: Store)
      ensures r.Read(p) == Some(text)
      ensures forall q :: Abs(q) != Abs(p) ==> r.Read(q) == Read(q)
      ensures r.dirs == dirs && r.cwd == cwd
    {
      Store(files[Abs(p) := text], dirs, cwd)
    }

    /** `open(path, 'a').write(text)`. */
    function Append(p: Path, text: string): (r: Store)
      ensures r.Read(p) == Some((if IsFile(p) then files[Abs(p)] else "") + text)
      ensures forall q :: Abs(q) != Abs(p) ==> r.Read(q) == Read(q)
      ensures r.dirs == dirs && r.cwd == cwd
    {
      Write(p, (if IsFile(p) then files[Abs(p)] else "") + text)
    }

    /** `path.mkdir(exist_ok=True)`. */
    function MakeDir(p: Path): (r: Store)
      ensures r.files == files && r.cwd == cwd && r.Exists(p)
      ensures forall q :: Exists(q) ==> r.Exists(q)
    {
      Store(files, dirs + {Abs(p)}, cwd)
    }

    /** `path.mkdir(parents=True, exist_ok=True)`. */
    function MakeDirs(p: Path): (r: Store)
      ensures r.files == files && r.cwd == cwd && r.Exists(p)
      ensures r.dirs == dirs + Ancestors(Abs(p))
    {
      Store(files, dirs + Ancestors(Abs(p)), cwd)
    }
  }

  /** What an operation leaves behind: the new state and what it returns. */
  datatype Effect<R> = Effect(store: Store, result: R)

  class FileSystem {
    var files: map<Path, string>
    var dirs: set<Path>
    const cwd: Path

    constructor (files: map<Path, string>, dirs: set<Path>, cwd: Path)
      ensures State() == Store(files, dirs, cwd)
    {
      this.files := files;
      this.dirs := dirs;
      this.cwd := cwd;
    }

    function State(): Store
      reads this
    {
      Store(files, dirs, cwd)
    }

    predicate Exists(p: Path)
      reads this
    {
      State().Exists(p)
    }

    method ReadText(p: Path) returns (r: Option<string>)
      ensures r == State().Read(p)
    {
      var a := Resolve(cwd, p);
      if a in files {
        r := Some(files[a]);
      } else {
        r := None;
      }
    }

    method WriteText(p: Path, text: string)
      modifies this
      ensures State() == old(State()).Write(p, text)
    {
      files := files[Resolve(cwd, p) := text];
    }

    method AppendText(p: Path, text: string)
      modifies this
      ensures State() == old(State()).Append(p, text)
    {
      var a := Resolve(cwd, p);
      var before := if a in files then files[a] else "";
      files := files[a := before + text];
    }

    method MakeDir(p: Path)
      modifies this
      ensures State() == old(State()).MakeDir(p)
    {
      dirs := dirs + {Resolve(cwd, p)};
    }

    method MakeDirs(p: Path)
      modifies this
      ensures State() == old(State()).MakeDirs(p)
    {
      dirs := dirs + Ancestors(Resolve(cwd, p));
    }
  }
}
