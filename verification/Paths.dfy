/** The path cleaner shared in form by internal/ftpd/handler.go (cleanFTPPath) and
    internal/sshd/commands.go (cleanPath), against the meaning of a path as a walk in a tree. */
module Paths {

  /** `strings.Split(s, "/")`. */
  function Split(s: string): (parts: seq<string>)
    ensures |parts| >= 1
    ensures forall k :: 0 <= k < |parts| ==> '/' !in parts[k]
  {
    if s == "" then [""]
    else
      var rest := Split(s[1..]);
      if s[0] == '/' then [""] + rest else [[s[0]] + rest[0]] + rest[1..]
  }

  /** `strings.Join(parts, "/")`. */
  function Join(parts: seq<string>): string {
    if parts == [] then ""
    else if |parts| == 1 then parts[0]
    else parts[0] + "/" + Join(parts[1..])
  }

  // ---------------------------------------------------------------------------
  // What a path means: the names on the way down from the root.

  predicate Proper(name: string) {
    name != "" && name != "." && name != ".." && '/' !in name
  }

  /** One segment: stay, go to the parent (the root is its own parent), or go down. */
  function Move(place: seq<string>, segment: string): seq<string> {
    if segment == "" || segment == "." then place
    else if segment == ".." then if place == [] then [] else place[..|place| - 1]
    else place + [segment]
  }

  function Walk(place: seq<string>, segments: seq<string>): seq<string>
    decreases segments
  {
    if segments == [] then place else Walk(Move(place, segments[0]), segments[1..])
  }

  /** Where a path leads when it is read from the root. */
  function Meaning(path: string): seq<string> {
    Walk([], Split(path))
  }

  /** The absolute path of a place. */
  function Render(place: seq<string>): string {
    if place == [] then "/" else "/" + Join(place)
  }

  function Clean(path: string): string {
    Render(Meaning(path))
  }

  ghost predicate AllProper(names: seq<string>) {
    forall k :: 0 <= k < |names| ==> Proper(names[k])
  }

  /** The canonical paths: the root, or a slash before each of one or more proper names. */
  ghost predicate Canonical(path: string) {
    path == "/" || (|Split(path)| >= 2 && Split(path)[0] == "" && AllProper(Split(path)[1..]))
  }

  // ---------------------------------------------------------------------------
  // The loop.

  method CleanPath(path: string) returns (r: string)
    ensures r == Clean(path)
  {
    var parts := Split(path);
    var clean: seq<string> := [];
    for k := 0 to |parts|
      invariant Walk([], parts) == Walk(clean, parts[k..])
    {
      var p := parts[k];
      assert parts[k..][0] == p && parts[k..][1..] == parts[k + 1..];
      if p == "" || p == "." {
        continue;
      }
      if p == ".." {
        if |clean| > 0 {
          clean := clean[..|clean| - 1];
        }
        continue;
      }
      clean := clean + [p];
    }
    if |clean| == 0 {
      return "/";
    }
    return "/" + Join(clean);
  }

  // ---------------------------------------------------------------------------
  // Split and Join.

  lemma {:induction false} SplitAround(a: string, b: string)
    ensures Split(a + "/" + b) == Split(a) + Split(b)
  {
    hide Prefix;
    if a == "" {
      assert a + "/" + b == ['/'] + b;
      SplitStep('/', b);
    } else {
      var tail := a[1..];
      assert a == [a[0]] + tail && a + "/" + b == [a[0]] + (tail + "/" + b);
      SplitAround(tail, b);
      SplitStep(a[0], tail);
      SplitStep(a[0], tail + "/" + b);
      Prefixed(a[0], Split(tail), Split(b));
    }
  }

  /** One more character in front of a split string. */
  function Prefix(c: char, parts: seq<string>): seq<string>
    requires |parts| >= 1
  {
    if c == '/' then [""] + parts else [[c] + parts[0]] + parts[1..]
  }

  lemma SplitStep(c: char, s: string)
    ensures Split([c] + s) == Prefix(c, Split(s))
  {
    assert ([c] + s)[1..] == s;
  }

  lemma Prefixed(c: char, xs: seq<string>, ys: seq<string>)
    requires |xs| >= 1
    ensures Prefix(c, xs + ys) == Prefix(c, xs) + ys
  {
    assert (xs + ys)[1..] == xs[1..] + ys;
  }

  lemma {:induction false} SplitPlain(name: string)
    requires '/' !in name
    ensures Split(name) == [name]
  {
    if name != "" {
      SplitPlain(name[1..]);
      assert [name[0]] + name[1..] == name;
    }
  }

  /** Splitting undoes joining. */
  lemma {:induction false} SplitJoin(parts: seq<string>)
    requires parts != [] && forall k :: 0 <= k < |parts| ==> '/' !in parts[k]
    ensures Split(Join(parts)) == parts
  {
    SplitPlain(parts[0]);
    if |parts| > 1 {
      SplitJoin(parts[1..]);
      SplitAround(parts[0], Join(parts[1..]));
      assert [parts[0]] + parts[1..] == parts;
    } else {
      assert parts == [parts[0]];
    }
  }

  lemma SplitRendered(place: seq<string>)
    requires AllProper(place) && place != []
    ensures Split(Render(place)) == [""] + place
  {
    SplitJoin(place);
    assert Render(place)[1..] == Join(place);
  }

  // ---------------------------------------------------------------------------
  // Walking.

  lemma {:induction false} WalkInTwo(place: seq<string>, xs: seq<string>, ys: seq<string>)
    ensures Walk(place, xs + ys) == Walk(Walk(place, xs), ys)
    decreases xs
  {
    if xs == [] {
      assert xs + ys == ys;
    } else {
      assert (xs + ys)[0] == xs[0] && (xs + ys)[1..] == xs[1..] + ys;
      WalkInTwo(Move(place, xs[0]), xs[1..], ys);
    }
  }

  lemma {:induction false} WalkDown(place: seq<string>, names: seq<string>)
    requires AllProper(names)
    ensures Walk(place, names) == place + names
    decreases names
  {
    if names == [] {
      assert place + names == place;
    } else {
      WalkDown(place + [names[0]], names[1..]);
      assert place + [names[0]] + names[1..] == place + names;
    }
  }

  /** However a walk goes, it ends at a place with proper names. */
  lemma {:induction false} WalkStaysProper(place: seq<string>, segments: seq<string>)
    requires AllProper(place) && forall k :: 0 <= k < |segments| ==> '/' !in segments[k]
    ensures AllProper(Walk(place, segments))
    decreases segments
  {
    if segments != [] {
      WalkStaysProper(Move(place, segments[0]), segments[1..]);
    }
  }

  lemma MeaningIsProper(path: string)
    ensures AllProper(Meaning(path))
  {
    WalkStaysProper([], Split(path));
  }

  /** Rendering a place and reading it back finds the same place. */
  lemma MeaningOfRendered(place: seq<string>)
    requires AllProper(place)
    ensures Meaning(Render(place)) == place
  {
    if place == [] {
      assert Split("/") == ["", ""] by { SplitAround("", ""); }
    } else {
      SplitRendered(place);
      WalkInTwo([], [""], place);
      WalkDown([], place);
    }
  }

  lemma MeaningAround(a: string, b: string)
    ensures Meaning(a + "/" + b) == Walk(Meaning(a), Split(b))
  {
    SplitAround(a, b);
    WalkInTwo([], Split(a), Split(b));
  }

  // ---------------------------------------------------------------------------
  // The laws of the cleaner.

  /** Cleaning keeps what a path means. */
  lemma CleanKeepsMeaning(path: string)
    ensures Meaning(Clean(path)) == Meaning(path)
  {
    MeaningIsProper(path);
    MeaningOfRendered(Meaning(path));
  }

  /** Two paths clean to the same string exactly when they mean the same place. */
  lemma CleanDecidesMeaning(a: string, b: string)
    ensures Clean(a) == Clean(b) <==> Meaning(a) == Meaning(b)
  {
    CleanKeepsMeaning(a);
    CleanKeepsMeaning(b);
  }

  lemma RenderedIsCanonical(place: seq<string>)
    requires AllProper(place)
    ensures Canonical(Render(place))
  {
    if place != [] {
      SplitRendered(place);
      assert ([""] + place)[1..] == place;
    }
  }

  lemma CleanIsCanonical(path: string)
    ensures Canonical(Clean(path))
  {
    MeaningIsProper(path);
    RenderedIsCanonical(Meaning(path));
  }

  lemma {:induction false} JoinSplit(s: string)
    ensures Join(Split(s)) == s
  {
    if s != "" {
      JoinSplit(s[1..]);
      var rest := Split(s[1..]);
      if s[0] == '/' {
        assert ([""] + rest)[1..] == rest && "" + "/" + s[1..] == s;
      } else {
        var first := [s[0]] + rest[0];
        assert ([first] + rest[1..])[1..] == rest[1..];
        assert s == [s[0]] + s[1..];
        if |rest| > 1 {
          assert first + "/" + Join(rest[1..]) == [s[0]] + (rest[0] + "/" + Join(rest[1..]));
        }
      }
    }
  }

  /** The canonical paths are exactly those cleaning leaves alone; in particular cleaning is idempotent. */
  lemma CanonicalExactly(path: string)
    ensures Canonical(path) <==> Clean(path) == path
    ensures Clean(Clean(path)) == Clean(path)
  {
    CleanKeepsMeaning(path);
    CleanIsCanonical(path);
    if Canonical(path) {
      if path == "/" {
        MeaningOfRendered([]);
      } else {
        var names := Split(path)[1..];
        assert Split(path) == [""] + names;
        JoinSplit(path);
        assert path == "/" + Join(names);
        MeaningOfRendered(names);
      }
    }
  }

  /** Cleaning a prefix first changes nothing. */
  lemma CleanThrough(a: string, b: string)
    ensures Clean(Clean(a) + "/" + b) == Clean(a + "/" + b)
  {
    MeaningAround(Clean(a), b);
    MeaningAround(a, b);
    CleanKeepsMeaning(a);
  }

  lemma CleanTrailing(a: string)
    ensures Clean(a + "/") == Clean(a)
  {
    MeaningAround(a, "");
    assert a + "/" + "" == a + "/";
    assert Walk(Meaning(a), [""]) == Walk(Meaning(a), []);
  }

  /** A leading slash is no segment. */
  lemma CleanRooted(b: string)
    ensures Clean("/" + b) == Clean(b)
    ensures Clean("/" + "/" + b) == Clean(b)
  {
    MeaningAround("", b);
    assert "" + "/" + b == "/" + b;
    MeaningAround("/", b);
    MeaningOfRendered([]);
    assert Meaning("") == [];
  }

  /** The parent of a place. */
  function Up(place: seq<string>): seq<string> {
    if place == [] then [] else place[..|place| - 1]
  }

  lemma CleanParent(path: string)
    ensures Clean(path + "/" + "..") == Render(Up(Meaning(path)))
  {
    MeaningAround(path, "..");
    SplitPlain("..");
  }

  /** For a canonical path, splitting is its meaning with an empty name in front. */
  lemma CanonicalSplit(path: string)
    requires Canonical(path)
    ensures AllProper(Meaning(path)) && path == Render(Meaning(path))
    ensures path == "/" <==> Meaning(path) == []
    ensures path != "/" ==> Split(path) == [""] + Meaning(path)
  {
    CanonicalExactly(path);
    MeaningIsProper(path);
    if path != "/" {
      SplitRendered(Meaning(path));
    } else {
      MeaningOfRendered([]);
    }
  }
}
