/** internal/sshd/commands.go: path resolution and the working directory of the fake shell. */
module Shell {
  import opened Paths
  import opened FakeFs

  function Resolve(path: string, cwd: string): string {
    if path != "" && path[0] == '/' then Clean(path)
    else if path == "~" || path == "" then "/root"
    else if "~/" <= path then Clean("/root/" + path[2..])
    else if path == ".." then
      var parts := Split(cwd);
      if |parts| > 1 then "/" + Join(parts[1..|parts| - 1]) else "/"
    else if path == "." then cwd
    else if cwd == "/" then "/" + path
    else Clean(cwd + "/" + path)
  }

  /** What a path should resolve to. */
  function Reference(path: string, cwd: string): string {
    if path != "" && path[0] == '/' then Clean(path)
    else if path == "~" || path == "" then "/root"
    else if "~/" <= path then Clean("/root/" + path[2..])
    else Clean(cwd + "/" + path)
  }

  predicate Relative(path: string) {
    path != "" && path[0] != '/' && path != "~" && !("~/" <= path)
  }

  /** The paths resolvePath does not clean: relative ones at the root, other than "." and "..", with a
      segment that is empty, "." or "..". */
  ghost predicate Uncleaned(path: string, cwd: string) {
    cwd == "/" && Relative(path) && path != "." && path != ".." && !AllProper(Split(path))
  }

  method ResolvePath(path: string, cwd: string) returns (r: string)
    ensures r == Resolve(path, cwd)
    ensures Canonical(cwd) ==> (r == Reference(path, cwd) <==> !Uncleaned(path, cwd))
    ensures Canonical(cwd) ==> (Canonical(r) <==> !Uncleaned(path, cwd))
  {
    hide Clean, Canonical, Uncleaned, Reference, Split;
    if Canonical(cwd) {
      ResolveExactly(path, cwd);
    }
    if path != "" && path[0] == '/' {
      r := CleanPath(path);
    } else if path == "~" || path == "" {
      r := "/root";
    } else if "~/" <= path {
      r := CleanPath("/root/" + path[2..]);
    } else if path == ".." {
      var parts := Split(cwd);
      r := if |parts| > 1 then "/" + Join(parts[1..|parts| - 1]) else "/";
    } else if path == "." {
      r := cwd;
    } else if cwd == "/" {
      r := "/" + path;
    } else {
      r := CleanPath(cwd + "/" + path);
    }
  }

  /** cmdCD. */
  function ChangedDir(fs: Fs, cwd: string, args: seq<string>): string {
    if args == [] then "/root"
    else if IsDir(fs, Resolve(args[0], cwd)) then Resolve(args[0], cwd)
    else cwd
  }

  function AfterCommand(fs: Fs, cwd: string, parts: seq<string>): string {
    if parts != [] && parts[0] == "cd" then ChangedDir(fs, cwd, parts[1..]) else cwd
  }

  /** The working directory after a run of commands, each split into its fields. */
  function AfterCommands(fs: Fs, cwd: string, commands: seq<seq<string>>): string
    decreases commands
  {
    if commands == [] then cwd else AfterCommands(fs, AfterCommand(fs, cwd, commands[0]), commands[1..])
  }

  /** A command context. `canned` gives the output of the commands that do not concern paths. */
  class Context {
    const fs: Fs
    const canned: (seq<string>, string) -> string
    var cwd: string

    constructor (content: string -> string, canned: (seq<string>, string) -> string)
      ensures fs == Populated(content) && cwd == "/root" && this.canned == canned
    {
      fs, this.canned, cwd := Populated(content), canned, "/root";
    }

    method ChangeDir(args: seq<string>) returns (output: string)
      modifies this
      ensures cwd == ChangedDir(fs, old(cwd), args)
      ensures output == if args == [] || IsDir(fs, Resolve(args[0], old(cwd))) then ""
                        else "bash: cd: " + args[0] + ": No such file or directory\n"
    {
      if |args| == 0 {
        cwd := "/root";
        return "";
      }
      var target := ResolvePath(args[0], cwd);
      if IsDir(fs, target) {
        cwd := target;
        return "";
      }
      return "bash: cd: " + args[0] + ": No such file or directory\n";
    }

    method Dispatch(parts: seq<string>) returns (output: string)
      modifies this
      ensures cwd == AfterCommand(fs, old(cwd), parts)
      ensures parts != [] && parts[0] == "pwd" ==> output == cwd + "\n"
      ensures parts != [] && parts[0] == "cd" ==>
        && cwd == ChangedDir(fs, old(cwd), parts[1..])
        && output == if |parts| == 1 || IsDir(fs, Resolve(parts[1], old(cwd))) then ""
                     else "bash: cd: " + parts[1] + ": No such file or directory\n"
      ensures parts == [] ==> output == ""
    {
      if |parts| == 0 {
        return "";
      }
      if parts[0] == "cd" {
        output := ChangeDir(parts[1..]);
      } else if parts[0] == "pwd" {
        output := cwd + "\n";
      } else {
        output := canned(parts, cwd);
      }
    }

    method Run(commands: seq<seq<string>>)
      modifies this
      ensures cwd == AfterCommands(fs, old(cwd), commands)
    {
      for k := 0 to |commands|
        invariant AfterCommands(fs, old(cwd), commands) == AfterCommands(fs, cwd, commands[k..])
      {
        assert commands[k..][0] == commands[k] && commands[k..][1..] == commands[k + 1..];
        var _ := Dispatch(commands[k]);
      }
    }
  }

  // ---------------------------------------------------------------------------
  // resolvePath against its reference.

  lemma ParentIsReference(cwd: string)
    requires Canonical(cwd)
    ensures Resolve("..", cwd) == Render(Up(Meaning(cwd))) == Clean(cwd + "/" + "..")
  {
    hide Meaning, Canonical, AllProper, Split, Clean;
    CanonicalSplit(cwd);
    CleanParent(cwd);
    var place := Meaning(cwd);
    if cwd == "/" {
      SlashSplits();
    } else {
      assert Split(cwd)[1..|place|] == Up(place);
    }
  }

  lemma SlashSplits()
    ensures Split("/") == ["", ""]
  {
    SplitAround("", "");
  }

  lemma DotIsReference(cwd: string)
    requires Canonical(cwd)
    ensures Clean(cwd + "/" + ".") == cwd
  {
    CanonicalExactly(cwd);
    MeaningAround(cwd, ".");
    SplitPlain(".");
    assert Walk(Meaning(cwd), ["."]) == Walk(Meaning(cwd), []);
  }

  lemma RootedCanonical(path: string)
    requires path != ""
    ensures Canonical("/" + path) <==> AllProper(Split(path))
  {
    SplitAround("", path);
    assert "" + "/" + path == "/" + path;
    assert ([""] + Split(path))[1..] == Split(path);
  }

  lemma AtRoot(path: string)
    requires path != ""
    ensures "/" + path == Clean("/" + "/" + path) <==> AllProper(Split(path))
  {
    RootedCanonical(path);
    CanonicalExactly("/" + path);
    CleanRooted(path);
  }

  /** From a canonical working directory resolvePath is its reference exactly outside the Uncleaned
      paths, and exactly then its result is canonical. */
  lemma ResolveExactly(path: string, cwd: string)
    requires Canonical(cwd)
    ensures Resolve(path, cwd) == Reference(path, cwd) <==> !Uncleaned(path, cwd)
    ensures Canonical(Resolve(path, cwd)) <==> !Uncleaned(path, cwd)
    ensures Canonical(Reference(path, cwd))
  {
    hide Clean, Canonical, Split, AllProper;
    RootHomeCanonical();
    ReferenceCanonical(path, cwd);
    if Relative(path) && path != "." && path != ".." && cwd == "/" {
      RootedCanonical(path);
      AtRoot(path);
      assert cwd + "/" + path == "/" + "/" + path;
    } else {
      ParentIsReference(cwd);
      DotIsReference(cwd);
    }
  }

  lemma RootHomeCanonical()
    ensures Canonical("/root")
  {
    TopHolds();
    DirectoryIsCanonical("/root");
  }

  lemma ReferenceCanonical(path: string, cwd: string)
    ensures Canonical(Reference(path, cwd))
  {
    hide Clean, Canonical;
    RootHomeCanonical();
    CleanIsCanonical(path);
    if "~/" <= path {
      CleanIsCanonical("/root/" + path[2..]);
    }
    CleanIsCanonical(cwd + "/" + path);
  }

  /** The fixed meanings: home for nothing and for a tilde, and below home after one. */
  lemma ResolveHome(cwd: string, rest: string)
    ensures Resolve("", cwd) == Resolve("~", cwd) == Reference("", cwd) == Reference("~", cwd) == "/root"
    ensures Resolve("~/" + rest, cwd) == Reference("~/" + rest, cwd) == Clean("/root/" + rest)
  {
    hide Clean;
    assert ("~/" + rest)[2..] == rest && ("~/" + rest)[0] == '~';
  }

  // ---------------------------------------------------------------------------
  // The working directory over any run.

  /** cd alone goes home; any word but cd leaves the directory. */
  lemma CdHome(fs: Fs, cwd: string, parts: seq<string>)
    ensures AfterCommand(fs, cwd, ["cd"]) == "/root"
    ensures parts == [] || parts[0] != "cd" ==> AfterCommand(fs, cwd, parts) == cwd
  {
    assert ["cd"][1..] == [];
  }

  /** cd, exactly: it goes to the directory the path means, unless the path is Uncleaned, which finds
      nothing even when that directory exists. */
  lemma CdExactly(content: string -> string, cwd: string, path: string)
    requires cwd in Directories()
    ensures
      ChangedDir(Populated(content), cwd, [path]) ==
      if Reference(path, cwd) in Directories() && !Uncleaned(path, cwd) then Reference(path, cwd) else cwd
  {
    hide Resolve, Reference, Directories, Populated, Canonical, Uncleaned, IsDir;
    var target := Resolve(path, cwd);
    DirectoryIsCanonical(cwd);
    ResolveExactly(path, cwd);
    DirectoriesExactly(content, target);
    if target in Directories() {
      DirectoryIsCanonical(target);
    }
  }

  lemma CommandKeepsDirectory(content: string -> string, cwd: string, parts: seq<string>)
    requires cwd in Directories()
    ensures AfterCommand(Populated(content), cwd, parts) in Directories()
  {
    hide Resolve, Directories, Populated, IsDir;
    DirectoriesAreTree();
    if parts != [] && parts[0] == "cd" && parts[1..] != [] {
      DirectoriesExactly(content, Resolve(parts[1..][0], cwd));
    }
  }

  /** Whatever is typed, the working directory is a directory of the filesystem, and canonical. */
  lemma {:induction false} CwdAlwaysDirectory(content: string -> string, cwd: string, commands: seq<seq<string>>)
    requires cwd in Directories()
    ensures AfterCommands(Populated(content), cwd, commands) in Directories()
    ensures Canonical(AfterCommands(Populated(content), cwd, commands))
    decreases commands
  {
    hide Directories, Populated, AfterCommand, Canonical;
    if commands == [] {
      DirectoryIsCanonical(cwd);
    } else {
      CommandKeepsDirectory(content, cwd, commands[0]);
      CwdAlwaysDirectory(content, AfterCommand(Populated(content), cwd, commands[0]), commands[1..]);
    }
  }

  /** "cd .." always succeeds, and goes to the parent. */
  lemma CdUp(content: string -> string, cwd: string)
    requires cwd in Directories()
    ensures AfterCommand(Populated(content), cwd, ["cd", ".."]) == Render(Up(Meaning(cwd)))
    ensures Render(Up(Meaning(cwd))) in Directories()
  {
    hide Resolve, Directories, Populated, IsDir, Canonical, Meaning;
    DirectoriesAreTree();
    assert Placed(cwd, Directories());
    CanonicalSplit(cwd);
    ParentIsReference(cwd);
    DirectoriesExactly(content, Resolve("..", cwd));
    assert ["cd", ".."][1..] == [".."];
  }

  function Ups(n: nat): seq<seq<string>> {
    if n == 0 then [] else [["cd", ".."]] + Ups(n - 1)
  }

  /** As many "cd .." as the working directory has names lead to the root. */
  lemma {:induction false} UpsReachRoot(content: string -> string, cwd: string, n: nat)
    requires cwd in Directories() && n == |Meaning(cwd)|
    ensures AfterCommands(Populated(content), cwd, Ups(n)) == "/"
    decreases n
  {
    hide Directories, Populated, AfterCommand, Canonical, Meaning, AllProper;
    DirectoryIsCanonical(cwd);
    CanonicalSplit(cwd);
    if n > 0 {
      CdUp(content, cwd);
      var up := Up(Meaning(cwd));
      UpIsProper(Meaning(cwd));
      MeaningOfRendered(up);
      UpsReachRoot(content, Render(up), n - 1);
      assert Ups(n)[1..] == Ups(n - 1);
    }
  }

  lemma UpIsProper(place: seq<string>)
    requires AllProper(place)
    ensures AllProper(Up(place))
  {
  }

  /** At the root "cd etc/" goes nowhere, although from /root "cd ../etc/" finds /etc. */
  lemma TrailingSlashAtRoot(content: string -> string)
    ensures ChangedDir(Populated(content), "/", ["etc/"]) == "/"
    ensures ChangedDir(Populated(content), "/root", ["../etc/"]) == "/etc"
  {
    hide ChangedDir, Directories, Populated, Canonical, Meaning, Clean, Split, AllProper;
    TopHolds();
    RootInDirectories();
    SlashPaths();
    CdExactly(content, "/", "etc/");
    CdExactly(content, "/root", "../etc/");
  }

  lemma RootInDirectories()
    ensures "/" in Directories() && "/root" in Directories() && "/etc" in Directories()
  {
    TopHolds();
  }

  lemma SlashPaths()
    ensures !AllProper(Split("etc/"))
    ensures Clean("/root" + "/" + "../etc/") == "/etc"
  {
    hide Clean, Meaning, Canonical, Directories;
    SplitAround("etc", "");
    assert "etc" + "/" + "" == "etc/";
    assert Split("etc/")[|Split("etc")|] == "";
    RootInDirectories();
    DirectoryIsCanonical("/etc");
    CanonicalExactly("/etc");
    CleanTrailing("/root/../etc");
    ClimbFromHome();
    assert "/root" + "/" + "../etc/" == "/root/../etc" + "/";
  }

  lemma ClimbFromHome()
    ensures Clean("/root/../etc") == Clean("/etc")
  {
    hide Meaning, Clean, Canonical, Split;
    MeaningOfRendered(["root"]);
    assert Render(["root"]) == "/" + "root" && "/" + "root" == "/root";
    CleanParent("/root");
    assert Up(["root"]) == [];
    CleanThrough("/root/..", "etc");
    assert "/root" + "/" + ".." == "/root/.." && "/root/.." + "/" + "etc" == "/root/../etc";
    CleanRooted("etc");
    assert "/" + "/" + "etc" == "//etc" && "/" + "etc" == "/etc";
  }
}
