/** The lexical path rules of Go's `path` package (`path.Clean`, `path.Join`)
    and `filepath.Abs` on an already absolute path, as the origin rewriting and
    the entrypoint walk use them. Paths are slash-separated strings. */
module GoPath {
  import opened Base

  /** `strings.Split(s, "/")`: never empty, no element contains a slash. */
  function Split(s: string): (r: seq<string>)
    ensures |r| >= 1
    ensures forall i :: 0 <= i < |r| ==> '/' !in r[i]
    decreases |s|
  {
    if s == [] then [""]
    else if s[0] == '/' then [""] + Split(s[1..])
    else
      var rest := Split(s[1..]);
      [[s[0]] + rest[0]] + rest[1..]
  }

  /** `strings.Join(segs, "/")`. */
  function JoinSegments(segs: seq<string>): string
    decreases |segs|
  {
    if segs == [] then ""
    else if |segs| == 1 then segs[0]
    else segs[0] + "/" + JoinSegments(segs[1..])
  }

  /** A path element that `Clean` keeps as it is. */
  predicate IsNormal(seg: string) {
    seg != "" && seg != "." && seg != ".." && '/' !in seg
  }

  predicate AllNormal(segs: seq<string>) {
    forall i :: 0 <= i < |segs| ==> IsNormal(segs[i])
  }

  /** The element stack `Clean` builds while it scans `segs` left to right:
      empty and `.` elements vanish, `..` removes the previous real element, or
      is dropped at the root of a rooted path, or is kept in front of a
      relative one. */
  function Resolve(segs: seq<string>, rooted: bool, stack: seq<string>): seq<string>
    decreases |segs|
  {
    if segs == [] then stack
    else
      var seg := segs[0];
      if seg == "" || seg == "." then Resolve(segs[1..], rooted, stack)
      else if seg == ".." then
        if |stack| > 0 && stack[|stack| - 1] != ".." then Resolve(segs[1..], rooted, stack[..|stack| - 1])
        else if rooted then Resolve(segs[1..], rooted, stack)
        else Resolve(segs[1..], rooted, stack + [".."])
      else Resolve(segs[1..], rooted, stack + [seg])
  }

  predicate IsAbs(p: string) {
    |p| > 0 && p[0] == '/'
  }

  /** `path.Clean`: the shortest lexically equivalent path. */
  function Clean(p: string): string {
    if p == "" then "."
    else
      var rooted := p[0] == '/';
      var body := JoinSegments(Resolve(Split(p), rooted, []));
      if rooted then "/" + body
      else if body == "" then "."
      else body
  }

  /** The byte buffer `path.Join` builds before cleaning it: every element
      after the first non-empty one is preceded by a slash. */
  function JoinBuffer(elems: seq<string>): string
    decreases |elems|
  {
    if elems == [] then ""
    else
      var buf := JoinBuffer(elems[..|elems| - 1]);
      var e := elems[|elems| - 1];
      if |buf| > 0 then buf + "/" + e else e
  }

  /** `path.Join`: empty when every element is empty, otherwise the cleaned
      buffer. */
  function Join(elems: seq<string>): string {
    var buf := JoinBuffer(elems);
    if buf == "" then "" else Clean(buf)
  }

  /** `filepath.Abs` of a path that is already absolute: its cleaned form,
      which is absolute and a fixed point of `Clean`. */
  function Abs(p: string): (r: string)
    requires IsAbs(p)
    ensures r == Clean(p)
    ensures IsAbs(r) && Clean(r) == r
  {
    CleanRooted(p);
    CleanIdempotentRooted(p);
    Clean(p)
  }

  // ---------------------------------------------------------------------------
  // Split and JoinSegments are inverse on slash-free elements

  lemma {:induction false} SplitNoSlash(a: string)
    requires '/' !in a
    ensures Split(a) == [a]
    decreases |a|
  {
    if a != [] {
      SplitNoSlash(a[1..]);
      assert [a[0]] + a[1..] == a;
    }
  }

  lemma {:induction false} SplitAfterElement(a: string, t: string)
    requires '/' !in a
    ensures Split(a + "/" + t) == [a] + Split(t)
    decreases |a|
  {
    if a == [] {
      assert (a + "/" + t)[1..] == t;
    } else {
      SplitAfterElement(a[1..], t);
      assert (a + "/" + t)[1..] == a[1..] + "/" + t;
      assert [a[0]] + a[1..] == a;
    }
  }

  /** Splitting a joined path gives the elements back. */
  lemma {:induction false} SplitJoin(segs: seq<string>)
    requires |segs| >= 1
    requires forall i :: 0 <= i < |segs| ==> '/' !in segs[i]
    ensures Split(JoinSegments(segs)) == segs
    decreases |segs|
  {
    if |segs| == 1 {
      SplitNoSlash(segs[0]);
    } else {
      SplitJoin(segs[1..]);
      SplitAfterElement(segs[0], JoinSegments(segs[1..]));
      assert [segs[0]] + segs[1..] == segs;
    }
  }

  lemma {:induction false} JoinSegmentsAppend(a: seq<string>, b: seq<string>)
    requires |a| >= 1 && |b| >= 1
    ensures JoinSegments(a + b) == JoinSegments(a) + "/" + JoinSegments(b)
    decreases |a|
  {
    if |a| == 1 {
      assert (a + b)[1..] == b;
    } else {
      JoinSegmentsAppend(a[1..], b);
      assert (a + b)[1..] == a[1..] + b;
    }
  }

  lemma {:induction false} JoinSegmentsHead(segs: seq<string>)
    requires |segs| >= 1 && |segs[0]| >= 1
    ensures |JoinSegments(segs)| >= 1 && JoinSegments(segs)[0] == segs[0][0]
  {
  }

  // ---------------------------------------------------------------------------
  // Properties of Resolve

  lemma {:induction false} ResolveKeepsNormal(segs: seq<string>, stack: seq<string>)
    requires forall i :: 0 <= i < |segs| ==> '/' !in segs[i]
    requires AllNormal(stack)
    ensures AllNormal(Resolve(segs, true, stack))
    decreases |segs|
  {
    if segs != [] {
      var seg := segs[0];
      if seg == "" || seg == "." {
        ResolveKeepsNormal(segs[1..], stack);
      } else if seg == ".." {
        if |stack| > 0 && stack[|stack| - 1] != ".." {
          ResolveKeepsNormal(segs[1..], stack[..|stack| - 1]);
        } else {
          ResolveKeepsNormal(segs[1..], stack);
        }
      } else {
        ResolveKeepsNormal(segs[1..], stack + [seg]);
      }
    }
  }

  lemma {:induction false} ResolveNormals(segs: seq<string>, rooted: bool, stack: seq<string>)
    requires AllNormal(segs)
    ensures Resolve(segs, rooted, stack) == stack + segs
    decreases |segs|
  {
    if segs != [] {
      ResolveNormals(segs[1..], rooted, stack + [segs[0]]);
      assert stack + [segs[0]] + segs[1..] == stack + segs;
    }
  }

  // ---------------------------------------------------------------------------
  // Properties of Clean on rooted paths

  /** A cleaned rooted path is the root followed by real elements only: no
      empty, `.` or `..` element survives, so it never leaves the root. */
  lemma CleanRooted(p: string)
    requires IsAbs(p)
    ensures var st := Resolve(Split(p), true, []);
      && AllNormal(st)
      && Clean(p) == "/" + JoinSegments(st)
  {
    ResolveKeepsNormal(Split(p), []);
  }

  /** The elements of a rooted path that is the root followed by `st`. */
  lemma {:induction false} SplitRooted(st: seq<string>)
    requires AllNormal(st)
    ensures Split("/" + JoinSegments(st)) == [""] + (if st == [] then [""] else st)
  {
    assert ("/" + JoinSegments(st))[1..] == JoinSegments(st);
    if st != [] {
      SplitJoin(st);
    }
  }

  /** Cleaning a rooted path twice changes nothing. */
  lemma {:induction false} CleanIdempotentRooted(p: string)
    requires IsAbs(p)
    ensures Clean(Clean(p)) == Clean(p)
  {
    CleanRooted(p);
    var st := Resolve(Split(p), true, []);
    var c := Clean(p);
    SplitRooted(st);
    if st == [] {
      assert c == "/";
      assert Split(c) == ["", ""];
      assert Resolve(["", ""], true, []) == Resolve([""], true, []) == [];
    } else {
      ResolveNormals(st, true, []);
      assert Split(c) == [""] + st;
      assert ([""] + st)[1..] == st;
      assert Resolve(Split(c), true, []) == st;
    }
  }

  /** After its leading slash, a cleaned rooted path does not start with another
      slash, and every element it names is a real one. */
  lemma {:induction false} CleanRootedTail(p: string)
    requires IsAbs(p)
    ensures IsAbs(Clean(p))
    ensures var tail := Clean(p)[1..];
      && (tail == [] || tail[0] != '/')
      && (tail == [] || AllNormal(Split(tail)))
  {
    CleanRooted(p);
    var st := Resolve(Split(p), true, []);
    assert Clean(p)[1..] == JoinSegments(st);
    if st != [] {
      assert IsNormal(st[0]);
      JoinSegmentsHead(st);
      SplitJoin(st);
    }
  }

  /** The buffer `path.Join` builds for the root, a directory and a path. */
  lemma JoinRootBuffer(dir: string, p: string)
    ensures JoinBuffer(["/", dir, p]) == "/" + "/" + dir + "/" + p
  {
    assert ["/", dir, p][..2] == ["/", dir];
    assert ["/", dir, p][..2][..1] == ["/"];
    assert JoinBuffer(["/"]) == "/";
  }

  /** A doubled root followed by real elements cleans to a single root. */
  lemma CleanDoubleRoot(segs: seq<string>)
    requires |segs| >= 1 && AllNormal(segs)
    ensures Clean("/" + ("/" + JoinSegments(segs))) == "/" + JoinSegments(segs)
  {
    var j := JoinSegments(segs);
    var buf := "/" + ("/" + j);
    SplitRooted(segs);
    assert buf[1..] == "/" + j;
    var ss := [""] + ([""] + segs);
    assert Split(buf) == ss;
    assert ss[1..] == [""] + segs;
    assert ([""] + segs)[1..] == segs;
    ResolveNormals(segs, true, []);
    assert [] + segs == segs;
    assert Resolve(ss, true, []) == Resolve([""] + segs, true, []) == Resolve(segs, true, []);
    assert buf != "" && buf[0] == '/';
    assert Clean(buf) == "/" + JoinSegments(Resolve(Split(buf), true, []));
  }

  /** Joining the root, a relative directory and a relative path made of real
      elements only just glues them with slashes. */
  lemma {:induction false} JoinUnderRoot(ds: seq<string>, ps: seq<string>)
    requires |ds| >= 1 && |ps| >= 1 && AllNormal(ds) && AllNormal(ps)
    ensures Join(["/", JoinSegments(ds), JoinSegments(ps)])
         == "/" + JoinSegments(ds) + "/" + JoinSegments(ps)
  {
    var d, q := JoinSegments(ds), JoinSegments(ps);
    assert JoinBuffer(["/", d, q]) == "/" + ("/" + JoinSegments(ds + ps)) by {
      JoinRootBuffer(d, q);
      JoinSegmentsAppend(ds, ps);
    }
    assert Clean("/" + ("/" + JoinSegments(ds + ps))) == "/" + JoinSegments(ds + ps) by {
      assert AllNormal(ds + ps) by {
        assert forall i :: 0 <= i < |ds + ps| ==> IsNormal((ds + ps)[i]);
      }
      CleanDoubleRoot(ds + ps);
    }
    assert JoinSegments(ds + ps) == d + "/" + q by {
      JoinSegmentsAppend(ds, ps);
    }
  }

  // ---------------------------------------------------------------------------
  // Appending a file name

  lemma {:induction false} SplitSnoc(a: string, name: string)
    requires '/' !in name
    ensures Split(a + "/" + name) == Split(a) + [name]
    decreases |a|
  {
    if a == [] {
      assert (a + "/" + name)[1..] == name;
      SplitNoSlash(name);
    } else {
      assert (a + "/" + name)[1..] == a[1..] + "/" + name;
      SplitSnoc(a[1..], name);
    }
  }

  lemma {:induction false} ResolveSnocNormal(segs: seq<string>, rooted: bool, stack: seq<string>, name: string)
    requires IsNormal(name)
    ensures Resolve(segs + [name], rooted, stack) == Resolve(segs, rooted, stack) + [name]
    decreases |segs|
  {
    if segs == [] {
      assert [] + [name] == [name];
      assert Resolve([name], rooted, stack) == Resolve([], rooted, stack + [name]);
    } else {
      var seg := segs[0];
      assert (segs + [name])[0] == seg;
      assert (segs + [name])[1..] == segs[1..] + [name];
      if seg == "" || seg == "." {
        ResolveSnocNormal(segs[1..], rooted, stack, name);
      } else if seg == ".." {
        if |stack| > 0 && stack[|stack| - 1] != ".." {
          ResolveSnocNormal(segs[1..], rooted, stack[..|stack| - 1], name);
        } else if rooted {
          ResolveSnocNormal(segs[1..], rooted, stack, name);
        } else {
          ResolveSnocNormal(segs[1..], rooted, stack + [".."], name);
        }
      } else {
        ResolveSnocNormal(segs[1..], rooted, stack + [seg], name);
      }
    }
  }

  /** Cleaning a path with a real last element keeps that element last. */
  lemma CleanKeepsLastName(p: string, name: string)
    requires IsNormal(name)
    ensures var c := Clean(p + "/" + name);
      c == name || HasSuffix(c, "/" + name)
  {
    var q := p + "/" + name;
    var rooted := q[0] == '/';
    var st := Resolve(Split(p), rooted, []);
    assert Resolve(Split(q), rooted, []) == st + [name] by {
      SplitSnoc(p, name);
      ResolveSnocNormal(Split(p), rooted, [], name);
    }
    if st == [] {
      assert st + [name] == [name];
    } else {
      assert JoinSegments(st + [name]) == JoinSegments(st) + "/" + name by {
        JoinSegmentsAppend(st, [name]);
      }
    }
  }

  /** `path.Join(dir, name)` of a real element ends with that element. */
  lemma JoinEndsWithName(dir: string, name: string)
    requires IsNormal(name)
    ensures HasSuffix(Join([dir, name]), name)
  {
    assert [dir, name][..1] == [dir];
    assert JoinBuffer([dir]) == dir by {
      assert [dir][..0] == [];
    }
    if dir == "" {
      assert JoinBuffer([dir, name]) == name;
      SplitNoSlash(name);
      assert Resolve([name], false, []) == Resolve([], false, [name]);
    } else {
      assert JoinBuffer([dir, name]) == dir + "/" + name;
      CleanKeepsLastName(dir, name);
    }
  }

  // ---------------------------------------------------------------------------
  // Joining a cleaned directory and a relative path of real elements

  /** The elements of `a/t` are those of `a` followed by those of `t`. */
  lemma {:induction false} SplitAppend(a: string, t: string)
    ensures Split(a + "/" + t) == Split(a) + Split(t)
    decreases |a|
  {
    if a == [] {
      assert (a + "/" + t)[1..] == t;
    } else if a[0] == '/' {
      assert (a + "/" + t)[1..] == a[1..] + "/" + t;
      SplitAppend(a[1..], t);
    } else {
      assert (a + "/" + t)[1..] == a[1..] + "/" + t;
      SplitAppend(a[1..], t);
    }
  }

  /** Real elements after any prefix are kept as they are. */
  lemma {:induction false} ResolveAppendNormals(segs: seq<string>, rooted: bool, stack: seq<string>, rs: seq<string>)
    requires AllNormal(rs)
    ensures Resolve(segs + rs, rooted, stack) == Resolve(segs, rooted, stack) + rs
    decreases |rs|
  {
    if rs == [] {
      assert segs + rs == segs;
    } else {
      var init, last := rs[..|rs| - 1], rs[|rs| - 1];
      assert AllNormal(init) by {
        assert forall i :: 0 <= i < |init| ==> init[i] == rs[i];
      }
      ResolveAppendNormals(segs, rooted, stack, init);
      assert segs + rs == (segs + init) + [last];
      ResolveSnocNormal(segs + init, rooted, stack, last);
      assert init + [last] == rs;
    }
  }

  /** An element `Clean` keeps on its stack: never empty, never `.`. */
  predicate Kept(seg: string) {
    seg != "" && seg != "."
  }

  lemma {:induction false} ResolveKept(segs: seq<string>, rooted: bool, stack: seq<string>)
    requires forall i :: 0 <= i < |stack| ==> Kept(stack[i])
    ensures forall i :: 0 <= i < |Resolve(segs, rooted, stack)| ==> Kept(Resolve(segs, rooted, stack)[i])
    decreases |segs|
  {
    if segs != [] {
      var seg := segs[0];
      if seg == "" || seg == "." {
        ResolveKept(segs[1..], rooted, stack);
      } else if seg == ".." {
        if |stack| > 0 && stack[|stack| - 1] != ".." {
          ResolveKept(segs[1..], rooted, stack[..|stack| - 1]);
        } else if rooted {
          ResolveKept(segs[1..], rooted, stack);
        } else {
          ResolveKept(segs[1..], rooted, stack + [".."]);
        }
      } else {
        ResolveKept(segs[1..], rooted, stack + [seg]);
      }
    }
  }

  /** A non-empty stack of kept elements joins to neither `""` nor `.`. */
  lemma JoinKept(st: seq<string>)
    requires |st| >= 1 && forall i :: 0 <= i < |st| ==> Kept(st[i])
    ensures JoinSegments(st) != "" && JoinSegments(st) != "."
  {
    if |st| > 1 {
      assert |JoinSegments(st)| >= |st[0]| + 1;
    }
  }

  /** The buffer `path.Join` builds for a non-empty directory and a path. */
  lemma JoinBufferPair(dir: string, rel: string)
    requires dir != ""
    ensures JoinBuffer([dir, rel]) == dir + "/" + rel
  {
    assert [dir, rel][..1] == [dir];
    assert JoinBuffer([dir]) == dir by {
      assert [dir][..0] == [];
    }
  }

  /** Cleaning `dir/rel` for a relative path of real elements: the stack of
      `dir` with those elements pushed. */
  lemma CleanAppendNormals(dir: string, rs: seq<string>)
    requires dir != "" && |rs| >= 1 && AllNormal(rs)
    ensures var st := Resolve(Split(dir), dir[0] == '/', []);
      Clean(dir + "/" + JoinSegments(rs)) == (if dir[0] == '/' then "/" else "") + JoinSegments(st + rs)
  {
    var rel := JoinSegments(rs);
    var buf := dir + "/" + rel;
    var rooted := dir[0] == '/';
    assert buf[0] == dir[0];
    SplitAppend(dir, rel);
    SplitJoin(rs);
    var st := Resolve(Split(dir), rooted, []);
    ResolveAppendNormals(Split(dir), rooted, [], rs);
    assert Resolve(Split(buf), rooted, []) == st + rs;
    ResolveKept(Split(dir), rooted, []);
    assert forall i :: 0 <= i < |st + rs| ==> Kept((st + rs)[i]);
    JoinKept(st + rs);
  }

  /** A cleaned directory is `.` or `/` exactly when its stack is empty, and
      otherwise its stack joined behind its root, if any. */
  lemma CleanDirStack(dir: string)
    requires Clean(dir) == dir
    ensures dir != ""
    ensures var st := Resolve(Split(dir), dir[0] == '/', []);
      && (st == [] <==> dir == "." || dir == "/")
      && (st != [] ==> dir == (if dir[0] == '/' then "/" else "") + JoinSegments(st))
  {
    var st := Resolve(Split(dir), dir[0] == '/', []);
    ResolveKept(Split(dir), dir[0] == '/', []);
    if st != [] {
      JoinKept(st);
    }
  }

  /** Appending real elements to a directory that is its own stack joined
      behind its root, if any, leaves the result clean. */
  lemma CleanAppendToStack(dir: string, rs: seq<string>)
    requires dir != "" && |rs| >= 1 && AllNormal(rs)
    requires var st := Resolve(Split(dir), dir[0] == '/', []);
      st != [] && (if dir[0] == '/' then "/" else "") + JoinSegments(st) == dir
    ensures Clean(dir + "/" + JoinSegments(rs)) == dir + "/" + JoinSegments(rs)
  {
    var rel := JoinSegments(rs);
    var root := if dir[0] == '/' then "/" else "";
    var st := Resolve(Split(dir), dir[0] == '/', []);
    assert Clean(dir + "/" + rel) == root + JoinSegments(st + rs) by {
      CleanAppendNormals(dir, rs);
    }
    assert JoinSegments(st + rs) == JoinSegments(st) + "/" + rel by {
      JoinSegmentsAppend(st, rs);
    }
  }

  /** Appending real elements to a cleaned directory other than `.` and `/`
      leaves the result clean. */
  lemma CleanAppendToClean(dir: string, rs: seq<string>)
    requires Clean(dir) == dir && dir != "." && dir != "/" && |rs| >= 1 && AllNormal(rs)
    ensures Clean(dir + "/" + JoinSegments(rs)) == dir + "/" + JoinSegments(rs)
  {
    CleanDirStack(dir);
    CleanAppendToStack(dir, rs);
  }

  /** `path.Join(dir, rel)` of a cleaned directory other than `.` and `/`
      and a relative path of real elements glues the two with a slash. */
  lemma JoinUnderCleanDir(dir: string, rs: seq<string>)
    requires Clean(dir) == dir && dir != "." && dir != "/" && |rs| >= 1 && AllNormal(rs)
    ensures Join([dir, JoinSegments(rs)]) == dir + "/" + JoinSegments(rs)
  {
    JoinBufferPair(dir, JoinSegments(rs));
    CleanAppendToClean(dir, rs);
  }

  /** Cleaning `./rel` drops the `.`. */
  lemma CleanDotAppend(rs: seq<string>)
    requires |rs| >= 1 && AllNormal(rs)
    ensures Clean("." + "/" + JoinSegments(rs)) == JoinSegments(rs)
  {
    CleanAppendNormals(".", rs);
    SplitNoSlash(".");
    assert Resolve(["."], false, []) == [];
    assert [] + rs == rs;
  }

  /** Cleaning `//rel` keeps a single root. */
  lemma CleanSlashAppend(rs: seq<string>)
    requires |rs| >= 1 && AllNormal(rs)
    ensures Clean("/" + "/" + JoinSegments(rs)) == "/" + JoinSegments(rs)
  {
    CleanAppendNormals("/", rs);
    assert Split("/") == ["", ""];
    assert Resolve(["", ""], true, []) == [];
    assert [] + rs == rs;
  }

  /** Under `.` the joined path is the relative path itself. */
  lemma JoinUnderDot(rs: seq<string>)
    requires |rs| >= 1 && AllNormal(rs)
    ensures Join([".", JoinSegments(rs)]) == JoinSegments(rs)
  {
    JoinBufferPair(".", JoinSegments(rs));
    CleanDotAppend(rs);
  }

  /** Under `/` the joined path is the relative path behind the root. */
  lemma JoinUnderSlash(rs: seq<string>)
    requires |rs| >= 1 && AllNormal(rs)
    ensures Join(["/", JoinSegments(rs)]) == "/" + JoinSegments(rs)
  {
    JoinBufferPair("/", JoinSegments(rs));
    CleanSlashAppend(rs);
  }

  /** `path.Clean(".")` is `.`. */
  lemma CleanDot()
    ensures Clean(".") == "."
  {
    SplitNoSlash(".");
    assert Resolve(["."], false, []) == [];
  }
}
