/** internal/sshd/filesystem.go: the fake filesystem, a map keyed by absolute path. */
module FakeFs {
  import opened Paths

  datatype Entry = Dir | File(content: string)

  type Fs = map<string, Entry>

  const TOP := ["bin", "boot", "dev", "etc", "home", "lib", "lib64", "media", "mnt", "opt", "proc",
                "root", "run", "sbin", "srv", "sys", "tmp", "usr", "var"]
  const ETC := ["ssh", "cron.d", "default"]
  const HOME := ["admin"]
  const USR := ["bin", "lib", "local", "sbin"]
  const VAR := ["log", "lib", "tmp", "run", "spool"]

  /** The path of an entry of a directory. */
  function Child(parent: string, name: string): string {
    if parent == "/" then "/" + name else parent + "/" + name
  }

  function Children(parent: string, names: seq<string>): set<string> {
    set name | name in names :: Child(parent, name)
  }

  /** The 33 directories that populate makes. */
  function Directories(): set<string> {
    {"/"} + Children("/", TOP) + Children("/etc", ETC) + Children("/home", HOME)
    + Children("/usr", USR) + Children("/var", VAR)
  }

  const ETC_FILES := ["hostname", "passwd", "shadow", "os-release", "issue"]
  const PROC_FILES := ["version", "cpuinfo", "meminfo"]
  const SSH_FILES := ["sshd_config"]

  function RegularFiles(): set<string> {
    Children("/etc", ETC_FILES) + Children("/proc", PROC_FILES) + Children("/etc/ssh", SSH_FILES)
  }

  /** populate, with the text of the files left open. */
  function Populated(content: string -> string): Fs {
    map p | p in Directories() + RegularFiles() ::
      if p in RegularFiles() then File(content(p)) else Dir
  }

  predicate IsDir(fs: Fs, path: string) {
    path in fs && fs[path].Dir?
  }

  // ---------------------------------------------------------------------------
  // The directories form a tree.

  ghost predicate Names(names: seq<string>) {
    forall name :: name in names ==> Proper(name)
  }

  lemma ChildMeans(parent: string, name: string)
    requires Canonical(parent) && Proper(name)
    ensures Canonical(Child(parent, name)) && Meaning(Child(parent, name)) == Meaning(parent) + [name]
  {
    CanonicalSplit(parent);
    SplitPlain(name);
    MeaningAround(parent, name);
    CleanRooted(name);
    var place := Meaning(parent) + [name];
    var path := parent + "/" + name;
    assert Walk(Meaning(parent), [name]) == Walk(place, []);
    MeaningIsProper(path);
    MeaningOfRendered(place);
    RenderedIsCanonical(place);
    ChildRenders(parent, name);
  }

  lemma ChildRenders(parent: string, name: string)
    requires Canonical(parent) && Proper(name)
    ensures Child(parent, name) == Render(Meaning(parent) + [name])
  {
    CanonicalSplit(parent);
    JoinMore(Meaning(parent), name);
  }

  lemma {:induction false} JoinMore(place: seq<string>, name: string)
    ensures Join(place + [name]) == if place == [] then name else Join(place) + "/" + name
  {
    if place != [] {
      assert (place + [name])[1..] == place[1..] + [name];
      JoinMore(place[1..], name);
      if |place| > 1 {
        assert place[0] + "/" + (Join(place[1..]) + "/" + name) == place[0] + "/" + Join(place[1..]) + "/" + name;
      }
    }
  }

  /** A set of paths is a tree: every path is the root or an entry of another path of the set. */
  ghost predicate Tree(dirs: set<string>) {
    "/" in dirs && forall d :: d in dirs ==> Placed(d, dirs)
  }

  ghost predicate Placed(path: string, dirs: set<string>) {
    Canonical(path) && (path == "/" || Render(Up(Meaning(path))) in dirs)
  }

  lemma PlacedMore(path: string, dirs: set<string>, more: set<string>)
    requires Placed(path, dirs) && dirs <= more
    ensures Placed(path, more)
  {
  }

  lemma ChildPlaced(dirs: set<string>, parent: string, name: string)
    requires Canonical(parent) && parent in dirs && Proper(name)
    ensures Placed(Child(parent, name), dirs)
  {
    ChildMeans(parent, name);
    CanonicalSplit(parent);
    assert Up(Meaning(parent) + [name]) == Meaning(parent);
  }

  /** Adding entries to a directory of a tree keeps it a tree. */
  lemma ChildrenKeepTree(dirs: set<string>, parent: string, names: seq<string>)
    requires Tree(dirs) && parent in dirs && Names(names)
    ensures Tree(dirs + Children(parent, names))
  {
    assert Placed(parent, dirs);
    var more := dirs + Children(parent, names);
    forall d | d in more
      ensures Placed(d, more)
    {
      if d in dirs {
        PlacedMore(d, dirs, more);
      } else {
        var name :| name in names && d == Child(parent, name);
        ChildPlaced(more, parent, name);
      }
    }
  }

  lemma RootIsTree()
    ensures Tree({"/"})
  {
  }

  lemma ChildAt(parent: string, names: seq<string>, k: nat, path: string)
    requires k < |names| && path == Child(parent, names[k])
    ensures path in Children(parent, names)
  {
  }

  lemma TopNames()
    ensures Names(TOP)
  {
    forall k | 0 <= k < |TOP|
      ensures Proper(TOP[k])
    {
    }
  }

  lemma LowerNames()
    ensures Names(ETC) && Names(HOME) && Names(USR) && Names(VAR)
  {
  }

  lemma TopHolds()
    ensures "/etc" in Children("/", TOP) && "/home" in Children("/", TOP) && "/proc" in Children("/", TOP)
    ensures "/root" in Children("/", TOP) && "/usr" in Children("/", TOP) && "/var" in Children("/", TOP)
  {
    hide Children;
    ChildAt("/", TOP, 3, "/etc");
    ChildAt("/", TOP, 4, "/home");
    ChildAt("/", TOP, 10, "/proc");
    ChildAt("/", TOP, 11, "/root");
    ChildAt("/", TOP, 17, "/usr");
    ChildAt("/", TOP, 18, "/var");
  }

  lemma DirectoriesAreTree()
    ensures Tree(Directories()) && "/root" in Directories()
  {
    hide Tree, Names, Children;
    RootIsTree();
    TopNames();
    LowerNames();
    TopHolds();
    assert "/" in {"/"};
    var d1 := {"/"} + Children("/", TOP);
    ChildrenKeepTree({"/"}, "/", TOP);
    var d2 := d1 + Children("/etc", ETC);
    ChildrenKeepTree(d1, "/etc", ETC);
    var d3 := d2 + Children("/home", HOME);
    ChildrenKeepTree(d2, "/home", HOME);
    var d4 := d3 + Children("/usr", USR);
    ChildrenKeepTree(d3, "/usr", USR);
    ChildrenKeepTree(d4, "/var", VAR);
  }

  // ---------------------------------------------------------------------------
  // No directory is overwritten by a file.

  ghost predicate EndsIn(path: string, names: seq<string>) {
    Meaning(path) != [] && Meaning(path)[|Meaning(path)| - 1] in names
  }

  lemma ChildrenEndIn(parent: string, names: seq<string>, all: seq<string>)
    requires Canonical(parent) && Names(names) && forall n :: n in names ==> n in all
    ensures forall path :: path in Children(parent, names) ==> EndsIn(path, all)
  {
    forall path | path in Children(parent, names)
      ensures EndsIn(path, all)
    {
      var name :| name in names && path == Child(parent, name);
      ChildMeans(parent, name);
    }
  }

  const FILE_NAMES := ETC_FILES + PROC_FILES + SSH_FILES
  const DIR_NAMES := TOP + ETC + HOME + USR + VAR

  lemma FileNames()
    ensures Names(ETC_FILES) && Names(PROC_FILES) && Names(SSH_FILES)
  {
  }

  ghost predicate Apart(xs: seq<string>, ys: seq<string>) {
    forall x :: x in xs ==> x !in ys
  }

  lemma TopApart()
    ensures Apart(TOP, ETC_FILES)
  {
  }

  lemma TopApartToo()
    ensures Apart(TOP, PROC_FILES + SSH_FILES)
  {
  }

  lemma LowerApart()
    ensures Apart(ETC + HOME + USR + VAR, ETC_FILES)
    ensures Apart(ETC + HOME + USR + VAR, PROC_FILES + SSH_FILES)
  {
  }

  lemma NamesApart()
    ensures Apart(DIR_NAMES, FILE_NAMES)
  {
    TopApart();
    TopApartToo();
    LowerApart();
    forall x | x in DIR_NAMES
      ensures x !in FILE_NAMES
    {
      assert x in TOP || x in ETC + HOME + USR + VAR;
    }
  }

  lemma DirectoryIsCanonical(d: string)
    requires d in Directories()
    ensures Canonical(d)
  {
    hide Children, Canonical, Directories;
    DirectoriesAreTree();
    assert Placed(d, Directories());
  }

  /** The directories that hold others. */
  lemma ParentsAreCanonical()
    ensures Canonical("/") && Canonical("/etc") && Canonical("/home") && Canonical("/usr") && Canonical("/var")
    ensures Canonical("/proc") && Canonical("/etc/ssh")
  {
    hide Children, Canonical, Child;
    TopHolds();
    SshIsChild();
    DirectoryIsCanonical("/");
    DirectoryIsCanonical("/etc");
    DirectoryIsCanonical("/home");
    DirectoryIsCanonical("/usr");
    DirectoryIsCanonical("/var");
    DirectoryIsCanonical("/proc");
    DirectoryIsCanonical("/etc/ssh");
  }

  lemma SshIsChild()
    ensures "/etc/ssh" in Children("/etc", ETC)
  {
    hide Children;
    ChildAt("/etc", ETC, 0, "/etc/ssh");
  }

  lemma DirectoriesEndIn(d: string)
    requires d in Directories() && d != "/"
    ensures EndsIn(d, DIR_NAMES)
  {
    hide Children, EndsIn, Names, Canonical;
    TopNames();
    LowerNames();
    ParentsAreCanonical();
    ChildrenEndIn("/", TOP, DIR_NAMES);
    ChildrenEndIn("/etc", ETC, DIR_NAMES);
    ChildrenEndIn("/home", HOME, DIR_NAMES);
    ChildrenEndIn("/usr", USR, DIR_NAMES);
    ChildrenEndIn("/var", VAR, DIR_NAMES);
  }

  lemma FilesEndIn(f: string)
    requires f in RegularFiles()
    ensures EndsIn(f, FILE_NAMES)
  {
    hide Children, EndsIn, Names, Canonical;
    FileNames();
    ParentsAreCanonical();
    ChildrenEndIn("/etc", ETC_FILES, FILE_NAMES);
    ChildrenEndIn("/proc", PROC_FILES, FILE_NAMES);
    ChildrenEndIn("/etc/ssh", SSH_FILES, FILE_NAMES);
  }

  /** No file that populate adds replaces a directory. */
  lemma FilesAreNoDirectories()
    ensures Directories() !! RegularFiles()
  {
    hide Directories, RegularFiles, Canonical, DIR_NAMES, FILE_NAMES;
    NamesApart();
    MeaningOfRendered([]);
    forall f | f in RegularFiles()
      ensures f !in Directories()
    {
      FilesEndIn(f);
      if f in Directories() && f != "/" {
        DirectoriesEndIn(f);
      }
    }
  }

  /** What IsDir answers, and the tree it shows. */
  lemma DirectoriesExactly(content: string -> string, path: string)
    ensures IsDir(Populated(content), path) <==> path in Directories()
  {
    FilesAreNoDirectories();
  }

  // ---------------------------------------------------------------------------
  // The directories, one by one.

  const TOP_PATHS := ["/bin", "/boot", "/dev", "/etc", "/home", "/lib", "/lib64", "/media", "/mnt", "/opt", "/proc",
                      "/root", "/run", "/sbin", "/srv", "/sys", "/tmp", "/usr", "/var"]
  const ETC_PATHS := ["/etc/ssh", "/etc/cron.d", "/etc/default"]
  const HOME_PATHS := ["/home/admin"]
  const USR_PATHS := ["/usr/bin", "/usr/lib", "/usr/local", "/usr/sbin"]
  const VAR_PATHS := ["/var/log", "/var/lib", "/var/tmp", "/var/run", "/var/spool"]

  const FILE_PATHS := ["/etc/hostname", "/etc/passwd", "/etc/shadow", "/etc/os-release", "/etc/issue",
                       "/proc/version", "/proc/cpuinfo", "/proc/meminfo", "/etc/ssh/sshd_config"]

  lemma ChildrenAre(parent: string, names: seq<string>, paths: seq<string>)
    requires |names| == |paths| && forall k :: 0 <= k < |names| ==> paths[k] == Child(parent, names[k])
    ensures forall p :: p in Children(parent, names) <==> p in paths
  {
    hide Child;
    forall p | p in paths
      ensures p in Children(parent, names)
    {
      var k :| 0 <= k < |paths| && paths[k] == p;
      ChildAt(parent, names, k, p);
    }
    forall p | p in Children(parent, names)
      ensures p in paths
    {
      var name :| name in names && p == Child(parent, name);
      var k :| 0 <= k < |names| && names[k] == name;
      assert paths[k] == p;
    }
  }

  lemma TopPaths()
    ensures forall p :: p in Children("/", TOP) <==> p in TOP_PATHS
  {
    hide Children;
    forall k | 0 <= k < |TOP|
      ensures TOP_PATHS[k] == Child("/", TOP[k])
    {
    }
    ChildrenAre("/", TOP, TOP_PATHS);
  }

  lemma LowerPaths()
    ensures forall p :: p in Children("/etc", ETC) <==> p in ETC_PATHS
    ensures forall p :: p in Children("/home", HOME) <==> p in HOME_PATHS
  {
    hide Children;
    ChildrenAre("/etc", ETC, ETC_PATHS);
    ChildrenAre("/home", HOME, HOME_PATHS);
  }

  lemma LowestPaths()
    ensures forall p :: p in Children("/usr", USR) <==> p in USR_PATHS
    ensures forall p :: p in Children("/var", VAR) <==> p in VAR_PATHS
  {
    hide Children;
    ChildrenAre("/usr", USR, USR_PATHS);
    ChildrenAre("/var", VAR, VAR_PATHS);
  }

  /** And the files are these. */
  lemma FilesListed(content: string -> string, path: string)
    ensures path in Populated(content) && !IsDir(Populated(content), path) <==> path in FILE_PATHS
    ensures path in FILE_PATHS ==> Populated(content)[path] == File(content(path))
  {
    hide Children, Directories, FILE_PATHS;
    FilePaths();
  }

  lemma FilePaths()
    ensures forall p :: p in RegularFiles() <==> p in FILE_PATHS
  {
    hide Children;
    ChildrenAre("/etc", ETC_FILES, FILE_PATHS[..5]);
    ChildrenAre("/proc", PROC_FILES, FILE_PATHS[5..8]);
    ChildrenAre("/etc/ssh", SSH_FILES, FILE_PATHS[8..]);
    assert FILE_PATHS == FILE_PATHS[..5] + FILE_PATHS[5..8] + FILE_PATHS[8..];
  }

  /** The 33 paths for which IsDir holds. */
  lemma DirectoriesListed(content: string -> string, path: string)
    ensures
      IsDir(Populated(content), path) <==>
      path == "/" || path in TOP_PATHS || path in ETC_PATHS || path in HOME_PATHS || path in USR_PATHS || path in VAR_PATHS
  {
    hide Children, IsDir, Populated, TOP_PATHS, ETC_PATHS, HOME_PATHS, USR_PATHS, VAR_PATHS;
    DirectoriesExactly(content, path);
    TopPaths();
    LowerPaths();
    LowestPaths();
  }
}
