/**
 * The part of the filesystem the management command inspects and changes: which
 * directories exist, which regular files exist with their contents, and which of
 * those files carry the executable bit.
 */
module FileSystems {

  /** The proper ancestor directories of `p` that `Path(p).parent.mkdir(parents=True)` creates. */
  function Ancestors(p: string): set<string> {
    set i: int | 0 < i < |p| && p[i] == '/' :: p[..i]
  }

  datatype FileSystem = FileSystem(dirs: set<string>, files: map<string, string>, executable: set<string>) {

    /** Only regular files carry the executable bit. */
    predicate Valid() {
      executable <= files.Keys
    }

    /** `Path(p).exists()` */
    predicate Exists(p: string) {
      p in dirs || p in files
    }

    /** `Path(p).is_file()` */
    predicate IsFile(p: string) {
      p in files
    }

    /** `p.exists() and p.is_file() and os.access(p, os.X_OK)` */
    predicate IsExecutableFile(p: string) {
      p in files && p in executable
    }

    /** `Path(p).parent.mkdir(parents=True, exist_ok=True)` */
    function MakeParents(p: string): (r: FileSystem)
      ensures forall q :: Exists(q) ==> r.Exists(q)
      ensures forall q :: q in Ancestors(p) ==> r.Exists(q)
      ensures r.dirs == dirs + Ancestors(p)
      ensures r.files == files && r.executable == executable
      ensures Valid() ==> r.Valid()
    {
      this.(dirs := dirs + Ancestors(p))
    }

    /** Opening `p` for writing and writing `content` (`write_text`, or the streamed download). */
    function Write(p: string, content: string): (r: FileSystem)
      ensures r.IsFile(p) && r.files[p] == content
      ensures forall q :: Exists(q) ==> r.Exists(q)
      ensures forall q :: q != p ==> (r.IsFile(q) <==> IsFile(q))
      ensures forall q :: q != p && IsFile(q) ==> q in r.files && r.files[q] == files[q]
      ensures r.dirs == dirs && r.executable == executable
      ensures Valid() ==> r.Valid()
    {
      this.(files := files[p := content])
    }

    /** `Path(p).chmod(0o755)` on a regular file. */
    function MakeExecutable(p: string): (r: FileSystem)
      requires IsFile(p)
      ensures r.IsExecutableFile(p)
      ensures forall q :: q != p ==> (r.IsExecutableFile(q) <==> IsExecutableFile(q))
      ensures r.dirs == dirs && r.files == files
      ensures Valid() ==> r.Valid()
    {
      this.(executable := executable + {p})
    }
  }
}
