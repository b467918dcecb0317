/**
 * The part of the operating system the recorders touch: a set of directory
 * paths and a map from file paths to their text.  Local disk and the mounted
 * network share live in the same tree, under different roots.
 */
module FileSystem {
  import opened Options
  import opened Text

  datatype Fs = Fs(dirs: set<string>, files: map<string, string>)

  /** `os.mkdir(p)`: raises FileExistsError when `p` is already a directory. */
  function MakeDir(fs: Fs, p: string): (r: Option<Fs>)
    ensures r.None? <==> p in fs.dirs
    ensures r.Some? ==> r.value.files == fs.files && r.value.dirs == fs.dirs + {p}
  {
    if p in fs.dirs then None else Some(fs.(dirs := fs.dirs + {p}))
  }

  /** `if not os.path.isdir(p): os.mkdir(p)`: the guarded form, which cannot raise. */
  function EnsureDir(fs: Fs, p: string): (r: Fs)
    ensures r.dirs == fs.dirs + {p} && r.files == fs.files
  {
    if p in fs.dirs then fs else fs.(dirs := fs.dirs + {p})
  }

  /** `open(p, "w").write(text)`: creates or truncates the file. */
  function Overwrite(fs: Fs, p: string, text: string): Fs
  {
    fs.(files := fs.files[p := text])
  }

  /** `open(p, "a").write(text)`: creates the file if needed, then appends. */
  function Append(fs: Fs, p: string, text: string): (r: Fs)
    ensures r.dirs == fs.dirs && r.files.Keys == fs.files.Keys + {p}
    ensures r.files[p] == (if p in fs.files then fs.files[p] else "") + text
    ensures forall q :: q in fs.files && q != p ==> r.files[q] == fs.files[q]
  {
    var old_ := if p in fs.files then fs.files[p] else "";
    fs.(files := fs.files[p := old_ + text])
  }

  /** `if os.path.isfile(p): os.remove(p)` */
  function RemoveFile(fs: Fs, p: string): (r: Fs)
    ensures r.dirs == fs.dirs && p !in r.files
    ensures r.files == fs.files - {p}
  {
    fs.(files := fs.files - {p})
  }

  /** Where `shutil.copy2(src, dstDir)` puts the copy. */
  function CopyTarget(src: string, dstDir: string): string
  {
    PathJoin(dstDir, BaseName(src))
  }

  /** A successful `shutil.copyfile(src, target)`: `target` gets the source's text; no other file changes. */
  function CopyOnto(fs: Fs, src: string, target: string): (r: Fs)
    requires src in fs.files
    ensures r.dirs == fs.dirs
    ensures r.files.Keys == fs.files.Keys + {target}
    ensures r.files[target] == fs.files[src]
    ensures forall q :: q in fs.files && q != target ==> r.files[q] == fs.files[q]
  {
    fs.(files := fs.files[target := fs.files[src]])
  }

  /**
   * A successful `shutil.copy2(src, dstDir)` into an existing directory:
   * the copy in `dstDir` gets the source's text; no other file changes.
   */
  function Copy(fs: Fs, src: string, dstDir: string): (r: Fs)
    requires src in fs.files
    ensures r.dirs == fs.dirs
    ensures r.files.Keys == fs.files.Keys + {CopyTarget(src, dstDir)}
    ensures r.files[CopyTarget(src, dstDir)] == fs.files[src]
    ensures forall q :: q in fs.files && q != CopyTarget(src, dstDir) ==> r.files[q] == fs.files[q]
  {
    CopyOnto(fs, src, CopyTarget(src, dstDir))
  }

  /**
   * A successful `shutil.copy2(src, dst)` for any `dst`: into `dst` when it is
   * a directory, otherwise onto the path `dst` itself, which then holds a
   * file with the source's text.
   */
  function Copy2(fs: Fs, src: string, dst: string): (r: Fs)
    requires src in fs.files
    ensures dst in fs.dirs ==> r == Copy(fs, src, dst)
    ensures dst !in fs.dirs ==> r.dirs == fs.dirs && r.files.Keys == fs.files.Keys + {dst} && r.files[dst] == fs.files[src]
    ensures dst !in fs.dirs ==> forall q :: q in fs.files && q != dst ==> r.files[q] == fs.files[q]
  {
    if dst in fs.dirs then Copy(fs, src, dst) else CopyOnto(fs, src, dst)
  }

  /** The copy of `dir/name` lands as `dstDir/name`. */
  lemma CopyTargetOfJoin(dir: string, name: string, dstDir: string)
    requires '/' !in name
    ensures CopyTarget(PathJoin(dir, name), dstDir) == PathJoin(dstDir, name)
  {
    BaseNameOfJoin(dir, name);
  }
}
