/** The webhook's check that no volume mount is nested under another.

    The check compares cleaned path texts with a trailing slash.  It is proved to
    find exactly the pairs where the components of one path are a strict prefix
    of those of the other, unless the outer path is the root (or "."). */
module Mounts {
  import opened Kube
  import Text

  /******* path.Clean *******/

  function Split(s: string): seq<string> {
    if s == "" then [""]
    else if s[0] == '/' then [""] + Split(s[1..])
    else
      var rest := Split(s[1..]);
      if rest == [] then [] else [[s[0]] + rest[0]] + rest[1..]
  }

  /** Empty and "." components are dropped, and ".." removes the component before
      it; at the front of a rooted path it is dropped too. */
  function Push(part: string, rooted: bool, stack: seq<string>): seq<string> {
    if part == "" || part == "." then stack
    else if part == ".." then
      if stack != [] && stack[|stack| - 1] != ".." then stack[..|stack| - 1]
      else if rooted then stack
      else stack + [part]
    else stack + [part]
  }

  function Reduce(parts: seq<string>, rooted: bool, stack: seq<string>): seq<string>
    decreases |parts|
  {
    if parts == [] then stack
    else Reduce(parts[1..], rooted, Push(parts[0], rooted, stack))
  }

  datatype Path = Path(rooted: bool, components: seq<string>)

  function Parse(s: string): Path {
    var rooted := s != "" && s[0] == '/';
    Path(rooted, Reduce(Split(s), rooted, []))
  }

  function Join(components: seq<string>): string {
    if components == [] then ""
    else if |components| == 1 then components[0]
    else components[0] + "/" + Join(components[1..])
  }

  function Render(p: Path): string {
    if p.rooted then "/" + Join(p.components)
    else if p.components == [] then "." else Join(p.components)
  }

  function Clean(s: string): string {
    Render(Parse(s))
  }

  /******* Cleaned paths *******/

  ghost predicate IsComponent(c: string) {
    c != "" && c != "." && '/' !in c
  }

  ghost predicate AreComponents(cs: seq<string>) {
    forall i :: 0 <= i < |cs| ==> IsComponent(cs[i])
  }

  lemma {:induction false} SplitHasNoSlash(s: string)
    ensures forall i :: 0 <= i < |Split(s)| ==> '/' !in Split(s)[i]
  {
    if s != "" {
      SplitHasNoSlash(s[1..]);
    }
  }

  /** Cleaned paths: ".." stands only at the front, and not in rooted paths. */
  ghost predicate IsNormal(p: Path) {
    && AreComponents(p.components)
    && forall i :: 0 <= i < |p.components| && p.components[i] == ".." ==>
         !p.rooted && forall j :: 0 <= j < i ==> p.components[j] == ".."
  }

  lemma {:induction false} ReduceGivesNormal(parts: seq<string>, rooted: bool, stack: seq<string>)
    requires IsNormal(Path(rooted, stack)) && forall i :: 0 <= i < |parts| ==> '/' !in parts[i]
    ensures IsNormal(Path(rooted, Reduce(parts, rooted, stack)))
    decreases |parts|
  {
    if parts != [] {
      ReduceGivesNormal(parts[1..], rooted, Push(parts[0], rooted, stack));
    }
  }

  lemma {:induction false} ReduceKeepsNormal(parts: seq<string>, rooted: bool, stack: seq<string>)
    requires IsNormal(Path(rooted, stack + parts))
    ensures Reduce(parts, rooted, stack) == stack + parts
    decreases |parts|
  {
    if parts == [] {
      assert stack + parts == stack;
    } else {
      var all := stack + parts;
      assert all[|stack|] == parts[0] && (stack != [] ==> all[|stack| - 1] == stack[|stack| - 1]);
      assert Push(parts[0], rooted, stack) == stack + [parts[0]];
      assert stack + [parts[0]] + parts[1..] == all;
      ReduceKeepsNormal(parts[1..], rooted, stack + [parts[0]]);
    }
  }

  lemma {:induction false} SplitComponent(c: string, rest: string)
    requires '/' !in c
    ensures Split(c) == [c] && Split(c + "/" + rest) == [c] + Split(rest)
  {
    if c == "" {
      assert (c + "/" + rest)[1..] == rest;
    } else {
      SplitComponent(c[1..], rest);
      assert (c + "/" + rest)[1..] == c[1..] + "/" + rest;
      assert c == [c[0]] + c[1..];
    }
  }

  lemma {:induction false} SplitJoin(cs: seq<string>)
    requires cs != [] && AreComponents(cs)
    ensures Split(Join(cs)) == cs
  {
    SplitComponent(cs[0], Join(cs[1..]));
    if |cs| > 1 {
      SplitJoin(cs[1..]);
      assert cs == [cs[0]] + cs[1..];
    }
  }

  /** Cleaning brings a path into normal form, and a cleaned text denotes the
      path it was rendered from: cleaning twice is cleaning once. */
  lemma CleanIsCanonical(s: string)
    ensures IsNormal(Parse(s)) && Parse(Clean(s)) == Parse(s) && Clean(Clean(s)) == Clean(s)
  {
    SplitHasNoSlash(s);
    ReduceGivesNormal(Split(s), Parse(s).rooted, []);
    RenderParse(Parse(s));
  }

  lemma RenderParse(p: Path)
    requires IsNormal(p)
    ensures Parse(Render(p)) == p
  {
    var cs := p.components;
    if cs == [] {
      SplitComponent("", "");
      SplitComponent(".", "");
      assert Render(p) == if p.rooted then "" + "/" + "" else ".";
      assert Reduce(["", ""], true, []) == [] && Reduce(["."], false, []) == [];
    } else {
      SplitJoin(cs);
      SplitComponent("", Join(cs));
      ReduceKeepsNormal(cs, p.rooted, []);
      assert [] + cs == cs;
      if p.rooted {
        assert Render(p) == "" + "/" + Join(cs);
        assert Reduce([""] + cs, true, []) == Reduce(([""] + cs)[1..], true, []);
      } else {
        JoinFront(cs);
      }
    }
  }

  /******* The rules of cleaning *******/

  lemma {:induction false} SplitConcat(s: string, t: string)
    ensures Split(s + "/" + t) == Split(s) + Split(t)
  {
    var all := s + "/" + t;
    if s == "" {
      assert all[1..] == t;
    } else {
      assert all[1..] == s[1..] + "/" + t;
      SplitConcat(s[1..], t);
      SplitHasParts(s[1..]);
    }
  }

  lemma {:induction false} SplitHasParts(s: string)
    ensures Split(s) != []
  {
    if s != "" {
      SplitHasParts(s[1..]);
    }
  }

  lemma {:induction false} ReduceConcat(parts: seq<string>, more: seq<string>, rooted: bool, stack: seq<string>)
    ensures Reduce(parts + more, rooted, stack) == Reduce(more, rooted, Reduce(parts, rooted, stack))
    decreases |parts|
  {
    if parts == [] {
      assert parts + more == more;
    } else {
      assert (parts + more)[1..] == parts[1..] + more;
      ReduceConcat(parts[1..], more, rooted, Push(parts[0], rooted, stack));
    }
  }

  lemma ReduceOne(part: string, rooted: bool, stack: seq<string>)
    ensures Reduce([part], rooted, stack) == Push(part, rooted, stack)
  {
    assert Reduce([part][1..], rooted, Push(part, rooted, stack)) == Push(part, rooted, stack);
  }

  /** The components of a path that is written as `s`, one element and `t`. */
  lemma ReduceMiddle(s: string, part: string, t: string, rooted: bool)
    requires '/' !in part
    ensures Reduce(Split(s + "/" + part + "/" + t), rooted, []) ==
            Reduce(Split(t), rooted, Push(part, rooted, Reduce(Split(s), rooted, [])))
  {
    SplitConcat(s + "/" + part, t);
    SplitConcat(s, part);
    SplitComponent(part, "");
    ReduceConcat(Split(s) + [part], Split(t), rooted, []);
    ReduceConcat(Split(s), [part], rooted, []);
    ReduceOne(part, rooted, Reduce(Split(s), rooted, []));
  }

  lemma ReduceTwo(s: string, t: string, rooted: bool)
    ensures Reduce(Split(s + "/" + t), rooted, []) == Reduce(Split(t), rooted, Reduce(Split(s), rooted, []))
  {
    SplitConcat(s, t);
    ReduceConcat(Split(s), Split(t), rooted, []);
  }

  lemma ParseTwo(s: string, t: string)
    ensures var rooted := s == "" || s[0] == '/';
            Parse(s + "/" + t) == Path(rooted, Reduce(Split(t), rooted, Reduce(Split(s), rooted, [])))
  {
    ReduceTwo(s, t, s == "" || s[0] == '/');
    assert (s + "/" + t)[0] == if s == "" then '/' else s[0];
  }

  lemma ParseMiddle(s: string, part: string, t: string)
    requires '/' !in part
    ensures var rooted := s == "" || s[0] == '/';
            Parse(s + "/" + part + "/" + t) ==
            Path(rooted, Reduce(Split(t), rooted, Push(part, rooted, Reduce(Split(s), rooted, []))))
  {
    ReduceMiddle(s, part, t, s == "" || s[0] == '/');
    assert (s + "/" + part + "/" + t)[0] == if s == "" then '/' else s[0];
  }

  /** The documented rules of path.Clean.  Several slashes are one, and "." is
      dropped. */
  lemma CleanDropsEmptyAndDot(s: string, t: string)
    ensures Clean(s + "/" + "" + "/" + t) == Clean(s + "/" + t)
    ensures Clean(s + "/" + "." + "/" + t) == Clean(s + "/" + t)
  {
    ParseTwo(s, t);
    ParseMiddle(s, "", t);
    ParseMiddle(s, ".", t);
  }

  /** An inner ".." takes the element before it along. */
  lemma CleanCancels(s: string, c: string, t: string)
    requires '/' !in c && c != "" && c != "." && c != ".."
    ensures Clean(s + "/" + c + "/" + ".." + "/" + t) == Clean(s + "/" + t)
  {
    var rooted := s == "" || s[0] == '/';
    ParseTwo(s, t);
    ParseMiddle(s + "/" + c, "..", t);
    ReduceTwo(s, c, rooted);
    SplitComponent(c, "");
    ReduceOne(c, rooted, Reduce(Split(s), rooted, []));
    assert (s + "/" + c)[0] == if s == "" then '/' else s[0];
  }

  /** At the front of a rooted path there is none, and ".." is dropped. */
  lemma CleanDropsRootedParent(t: string)
    ensures Clean("/../" + t) == Clean("/" + t)
  {
    ParseTwo("", t);
    ParseMiddle("", "..", t);
    ReduceOne("", true, []);
    assert "" + "/" + ".." + "/" + t == "/../" + t && "" + "/" + t == "/" + t;
  }

  /** At the ends: a trailing slash and a leading "." are dropped, a leading element
      is cancelled by "..", and the empty path is ".". */
  lemma CleanAtTheEnds(s: string, c: string, t: string)
    requires '/' !in c && c != "" && c != "." && c != ".." && s != "" && (t == "" || t[0] != '/')
    ensures Clean(s + "/") == Clean(s)
    ensures Clean("." + "/" + t) == Clean(t) && Clean(c + "/" + ".." + "/" + t) == Clean(t)
    ensures Clean("") == "." && Clean("/") == "/"
  {
    var rooted := s[0] == '/';
    ReduceTwo(s, "", rooted);
    assert s + "/" + "" == s + "/";
    ReduceOne("", rooted, Reduce(Split(s), rooted, []));
    ReduceTwo(".", t, false);
    SplitComponent(".", "");
    ReduceOne(".", false, []);
    ReduceMiddle(c, "..", t, false);
    SplitComponent(c, "");
    ReduceOne(c, false, []);
    assert Push("..", false, [c]) == [];
    ReduceOne("", false, []);
    ParseRootAndData();
  }

  lemma JoinFront(cs: seq<string>)
    requires cs != [] && AreComponents(cs)
    ensures Join(cs) != "" && Join(cs)[0] == cs[0][0] != '/'
  {
  }

  lemma ParsedComponents(s: string)
    ensures AreComponents(Parse(s).components)
  {
    CleanIsCanonical(s);
  }

  /******* The prefix test *******/

  /** Every component followed by a slash. */
  function Terminated(cs: seq<string>): string {
    if cs == [] then "" else cs[0] + "/" + Terminated(cs[1..])
  }

  lemma {:induction false} JoinTerminated(cs: seq<string>)
    requires cs != []
    ensures Join(cs) + "/" == Terminated(cs)
  {
    if |cs| > 1 {
      JoinTerminated(cs[1..]);
      assert Join(cs) + "/" == cs[0] + "/" + (Join(cs[1..]) + "/");
    } else {
      assert Terminated(cs[1..]) == "";
    }
  }

  lemma {:induction false} TerminatedPrefix(cs: seq<string>, ds: seq<string>)
    requires AreComponents(cs) && AreComponents(ds)
    ensures Terminated(cs) <= Terminated(ds) <==> cs <= ds
  {
    if cs != [] && ds != [] {
      var c, d, cs', ds' := cs[0], ds[0], cs[1..], ds[1..];
      TerminatedPrefix(cs', ds');
      if Terminated(cs) <= Terminated(ds) {
        var rest := Terminated(ds)[|Terminated(cs)|..];
        assert Terminated(ds) == c + "/" + (Terminated(cs') + rest);
        Text.SplitAtFirst(c, Terminated(cs') + rest, d, Terminated(ds'), '/');
        assert Terminated(cs') <= Terminated(ds');
        assert cs == [c] + cs' && ds == [d] + ds';
      }
    }
  }

  function Front(p: Path): string {
    if p.rooted then "/" else ""
  }

  lemma RenderTerminated(p: Path)
    requires p.components != []
    ensures Render(p) + "/" == Front(p) + Terminated(p.components)
  {
    JoinTerminated(p.components);
  }

  /** A path without components is a prefix of no other: neither "//" nor "./"
      begins the text of a path that has components. */
  lemma EmptyIsNoPrefix(p: Path, q: Path)
    requires AreComponents(p.components) && p.components != [] && q.components == []
    ensures !(Render(q) + "/" <= Render(p) + "/") && Render(p) != Render(q)
  {
    RenderTerminated(p);
    var c, text := p.components[0], Render(p) + "/";
    assert text == Front(p) + (c + ("/" + Terminated(p.components[1..])));
    assert text[|Front(p)|..] == c + ("/" + Terminated(p.components[1..]));
    assert text[|Front(p)|] == c[0] != '/';
    assert !p.rooted ==> text[0] == c[0] && (|c| > 1 ==> text[1] == c[1] != '/');
    assert c[0] == '.' && |c| == 1 ==> c == ".";
  }

  /** Does `inner` lie strictly under `outer`?  The root and "." are not
      considered to hold anything. */
  ghost predicate NestedUnder(inner: Path, outer: Path) {
    inner.rooted == outer.rooted && outer.components != [] && outer.components < inner.components
  }

  /** The textual test decides nesting, and cleaned texts are equal only for
      equal paths. */
  lemma PrefixTest(p: Path, q: Path)
    requires AreComponents(p.components) && AreComponents(q.components)
    ensures Render(p) == Render(q) <==> p == q
    ensures p != q ==> (Render(q) + "/" <= Render(p) + "/" <==> NestedUnder(p, q))
  {
    if p.components == [] && q.components == [] {
      assert Render(p) == (if p.rooted then "/" else ".") && Render(q) == (if q.rooted then "/" else ".");
      assert p != q ==> (Render(p) + "/")[0] != (Render(q) + "/")[0];
    } else if q.components == [] {
      EmptyIsNoPrefix(p, q);
    } else if p.components == [] {
      EmptyIsNoPrefix(q, p);
      RenderTerminated(q);
      assert |q.components[0]| > 0;
    } else {
      RenderTerminated(p);
      RenderTerminated(q);
      TerminatedPrefix(p.components, q.components);
      TerminatedPrefix(q.components, p.components);
      FrontsDiffer(p, q);
    }
  }

  lemma FrontsDiffer(p: Path, q: Path)
    requires AreComponents(p.components) && AreComponents(q.components) && p.components != [] && q.components != []
    ensures Front(q) + Terminated(q.components) <= Front(p) + Terminated(p.components) <==>
            p.rooted == q.rooted && Terminated(q.components) <= Terminated(p.components)
    ensures Front(q) + Terminated(q.components) == Front(p) + Terminated(p.components) ==> p.rooted == q.rooted
  {
    assert Terminated(p.components)[0] == p.components[0][0] != '/';
    assert Terminated(q.components)[0] == q.components[0][0] != '/';
    PrefixUnderSlash(Terminated(q.components), Terminated(p.components));
    assert p.rooted != q.rooted ==>
        (Front(q) + Terminated(q.components))[0] != (Front(p) + Terminated(p.components))[0];
  }

  lemma PrefixUnderSlash(s: string, t: string)
    ensures "/" + s <= "/" + t <==> s <= t
    ensures "" + s == s && "" + t == t
  {
    assert ("/" + s)[1..] == s && ("/" + t)[1..] == t;
    if s <= t {
      assert ("/" + t)[..|s| + 1] == "/" + t[..|s|];
    }
  }

  /******* The validation *******/

  datatype Mount = Mount(name: string, mountPath: string)

  /** Errors are placed on the mount with the given index; a nesting error goes
      to the inner mount. */
  datatype MountError = UndeclaredVolume(index: nat) | Nested(inner: nat, outer: nat)

  ghost predicate IsMountError(volumes: seq<string>, mounts: seq<Mount>, e: MountError) {
    match e
    case UndeclaredVolume(i) => i < |mounts| && mounts[i].name !in volumes
    case Nested(i, j) =>
      i < |mounts| && j < |mounts| && NestedUnder(Parse(mounts[i].mountPath), Parse(mounts[j].mountPath))
  }

  /** The errors found when the outer loop is at `i` and the inner one at `j`. */
  ghost predicate Visited(e: MountError, i: nat, j: nat) {
    match e
    case UndeclaredVolume(k) => k <= i
    case Nested(k, l) => if k < l then k < i || (k == i && l < j) else l < i || (l == i && k < j)
  }

  lemma MountTest(a: Mount, b: Mount)
    ensures var p, q := Parse(a.mountPath), Parse(b.mountPath);
            && (Clean(a.mountPath) == Clean(b.mountPath) <==> p == q)
            && (p != q ==> (Clean(b.mountPath) + "/" <= Clean(a.mountPath) + "/" <==> NestedUnder(p, q)))
            && (b.mountPath == "" ==> !NestedUnder(p, q) && !NestedUnder(q, p))
            && !(NestedUnder(p, q) && NestedUnder(q, p))
  {
    ParsedComponents(a.mountPath);
    ParsedComponents(b.mountPath);
    PrefixTest(Parse(a.mountPath), Parse(b.mountPath));
    if b.mountPath == "" {
      assert Parse("").components == Reduce([""], false, []) == Reduce([""][1..], false, []) == [];
    }
  }

  /** Adds the nesting error of the pair `i` < `j`, if there is one. */
  method CheckPair(mounts: seq<Mount>, i: nat, j: nat, before: seq<MountError>) returns (errs: seq<MountError>)
    requires i < j < |mounts|
    ensures errs == before +
            (if NestedUnder(Parse(mounts[j].mountPath), Parse(mounts[i].mountPath)) then [Nested(j, i)]
             else if NestedUnder(Parse(mounts[i].mountPath), Parse(mounts[j].mountPath)) then [Nested(i, j)] else [])
  {
    MountTest(mounts[i], mounts[j]);
    MountTest(mounts[j], mounts[i]);
    errs := before;
    if mounts[j].mountPath == "" {
      return;
    }
    var path1, path2 := Clean(mounts[i].mountPath), Clean(mounts[j].mountPath);
    if path1 == path2 {
      return;
    }
    if path1 + "/" <= path2 + "/" {
      errs := errs + [Nested(j, i)];
    } else if path2 + "/" <= path1 + "/" {
      errs := errs + [Nested(i, j)];
    }
  }

  /** Exactly one error per undeclared volume and per nested pair, and nothing
      else. */
  method ValidateVolumeMounts(volumes: seq<string>, mounts: seq<Mount>) returns (errs: seq<MountError>)
    ensures NoDuplicates(errs)
    ensures forall e :: e in errs <==> IsMountError(volumes, mounts, e)
  {
    errs := [];
    for i := 0 to |mounts|
      invariant NoDuplicates(errs)
      invariant forall e :: e in errs <==> IsMountError(volumes, mounts, e) && i > 0 && Visited(e, i - 1, |mounts|)
    {
      assert UndeclaredVolume(i) !in errs;
      if mounts[i].name !in volumes {
        errs := errs + [UndeclaredVolume(i)];
      }
      for j := i + 1 to |mounts|
        invariant NoDuplicates(errs)
        invariant forall e :: e in errs <==> IsMountError(volumes, mounts, e) && Visited(e, i, j)
      {
        MountTest(mounts[i], mounts[j]);
        var before := errs;
        errs := CheckPair(mounts, i, j, errs);
        assert Nested(i, j) !in before && Nested(j, i) !in before;
        forall e
          ensures e in errs <==> IsMountError(volumes, mounts, e) && Visited(e, i, j + 1)
        {
          assert Visited(e, i, j + 1) <==> Visited(e, i, j) || e == Nested(i, j) || e == Nested(j, i);
        }
      }
    }
  }

  lemma ParseRootAndData()
    ensures Parse("/") == Path(true, []) && Parse("/data") == Path(true, ["data"])
  {
    SplitComponent("", "");
    SplitComponent("", "data");
    SplitComponent("data", "");
    assert "/" == "" + "/" + "" && "/data" == "" + "/" + "data";
    ReduceKeepsNormal(["data"], true, []);
    assert Reduce(["", ""], true, []) == Reduce(["", ""][1..], true, []) == [];
    assert Reduce(["", "data"], true, []) == Reduce(["", "data"][1..], true, []) && ["", "data"][1..] == ["data"];
  }

  lemma NoErrorWithoutNesting(volumes: seq<string>, mounts: seq<Mount>, root: Path, inner: Path, e: MountError)
    requires |mounts| == 2 && Parse(mounts[0].mountPath) == root && Parse(mounts[1].mountPath) == inner
    requires mounts[0].name in volumes && mounts[1].name in volumes
    requires root.components == []
    ensures !IsMountError(volumes, mounts, e)
  {
  }

  /** A mount under the root is nested in it, yet not reported. */
  lemma RootMountNotReported(volumes: seq<string>, mounts: seq<Mount>, e: MountError)
    requires |mounts| == 2 && mounts[0].mountPath == "/" && mounts[1].mountPath == "/data"
    requires mounts[0].name in volumes && mounts[1].name in volumes
    ensures Parse(mounts[0].mountPath).components < Parse(mounts[1].mountPath).components
    ensures !IsMountError(volumes, mounts, e)
  {
    ParseRootAndData();
    NoErrorWithoutNesting(volumes, mounts, Path(true, []), Path(true, ["data"]), e);
  }
}
