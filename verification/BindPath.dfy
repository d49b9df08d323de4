/** Rebasing a container path onto the host (resolveHostBindPath in pkg/worker/worker.go),
    with the slash-separated path algebra it rests on: cleaning, relative paths and joining. */
module BindPath {

  /** A cleaned path: whether it starts at the root, and its parts. */
  datatype Path = Path(rooted: bool, parts: seq<string>)

  datatype Result = Resolved(path: string) | OutsideRoot | NoRelativePath

  predicate IsAbs(s: string) {
    s != "" && s[0] == '/'
  }

  /** The pieces between slashes, empty ones included. */
  function Split(s: string): (r: seq<string>)
    ensures |r| >= 1
  {
    if s == "" then [""]
    else if s[0] == '/' then [""] + Split(s[1..])
    else
      var r := Split(s[1..]);
      [[s[0]] + r[0]] + r[1..]
  }

  function Join(parts: seq<string>): string {
    if parts == [] then "" else if |parts| == 1 then parts[0] else parts[0] + "/" + Join(parts[1..])
  }

  /** Cleaning piece by piece: empty pieces and "." go, ".." takes the part before it back; at
      the root there is nothing to take, and a relative path keeps its leading "..". */
  function CleanOnto(rooted: bool, done: seq<string>, pieces: seq<string>): seq<string>
    decreases |pieces|
  {
    if pieces == [] then done
    else CleanOnto(rooted, Take(rooted, done, pieces[0]), pieces[1..])
  }

  function Take(rooted: bool, done: seq<string>, piece: string): seq<string> {
    if piece == "" || piece == "." then done
    else if piece != ".." then done + [piece]
    else if done != [] && done[|done| - 1] != ".." then done[..|done| - 1]
    else if rooted then done
    else done + [".."]
  }

  function Parse(s: string): Path {
    Path(IsAbs(s), CleanOnto(IsAbs(s), [], Split(s)))
  }

  function Text(p: Path): string {
    if p.rooted then "/" + Join(p.parts) else if p.parts == [] then "." else Join(p.parts)
  }

  function Clean(s: string): string {
    Text(Parse(s))
  }

  function CommonLength(a: seq<string>, b: seq<string>): (n: nat)
    ensures n <= |a| && n <= |b| && a[..n] == b[..n]
    ensures n < |a| && n < |b| ==> a[n] != b[n]
  {
    if a != [] && b != [] && a[0] == b[0] then 1 + CommonLength(a[1..], b[1..]) else 0
  }

  function Ups(n: nat): seq<string> {
    seq(n, _ => "..")
  }

  /** The way from base to target, if one can be told without knowing the working directory. */
  function Rel(base: Path, target: Path): (r: Result)
    ensures r != OutsideRoot
  {
    if base == target then Resolved(".")
    else if base.rooted != target.rooted then NoRelativePath
    else
      var n := CommonLength(base.parts, target.parts);
      if n < |base.parts| && base.parts[n] == ".." then NoRelativePath
      else Resolved(Join(Ups(|base.parts| - n) + target.parts[n..]))
  }

  predicate StartsOutside(rel: string) {
    (|rel| >= 3 && rel[..3] == "../") || rel == ".."
  }

  function ResolveHostBindPath(hostRoot: string, containerRoot: string, containerPath: string): Result {
    if hostRoot == "" || containerRoot == "" || containerPath == "" then Resolved("")
    else
      match Rel(Parse(containerRoot), Parse(containerPath))
      case Resolved(rel) => if StartsOutside(rel) then OutsideRoot else Resolved(Clean(hostRoot + "/" + rel))
      case other => other
  }

  // ---------------------------------------------------------------------------------------
  // The path algebra
  // ---------------------------------------------------------------------------------------

  predicate SlashFree(s: string) {
    forall i | 0 <= i < |s| :: s[i] != '/'
  }

  predicate IsPart(s: string) {
    s != "" && s != "." && SlashFree(s)
  }

  /** What cleaning leaves: parts with nothing to take back, so ".." only at the start of a
      relative path. */
  predicate Cleaned(rooted: bool, parts: seq<string>) {
    && (forall i | 0 <= i < |parts| :: IsPart(parts[i]))
    && (forall i | 0 <= i < |parts| && parts[i] == ".." :: !rooted && (i == 0 || parts[i - 1] == ".."))
  }

  /** No part goes up. */
  predicate AllNames(parts: seq<string>) {
    forall i | 0 <= i < |parts| :: IsPart(parts[i]) && parts[i] != ".."
  }

  lemma {:induction false} SplitSum(a: string, b: string)
    ensures Split(a + "/" + b) == Split(a) + Split(b)
  {
    if a == "" {
      assert a + "/" + b == "/" + b && ("/" + b)[1..] == b;
    } else {
      assert (a + "/" + b)[1..] == a[1..] + "/" + b;
      SplitSum(a[1..], b);
    }
  }

  lemma {:induction false} SplitSlashFree(s: string)
    requires SlashFree(s)
    ensures Split(s) == [s]
  {
    if s != "" {
      assert SlashFree(s[1..]);
      SplitSlashFree(s[1..]);
      assert [s[0]] + s[1..] == s;
    }
  }

  lemma {:induction false} SplitPieces(s: string)
    ensures forall i | 0 <= i < |Split(s)| :: SlashFree(Split(s)[i])
  {
    if s != "" {
      SplitPieces(s[1..]);
    }
  }

  lemma {:induction false} SplitJoin(parts: seq<string>)
    requires parts != [] && forall i | 0 <= i < |parts| :: SlashFree(parts[i])
    ensures Split(Join(parts)) == parts
  {
    SplitSlashFree(parts[0]);
    if |parts| > 1 {
      SplitJoin(parts[1..]);
      SplitSum(parts[0], Join(parts[1..]));
    }
  }

  lemma {:induction false} CleanSum(rooted: bool, done: seq<string>, a: seq<string>, b: seq<string>)
    ensures CleanOnto(rooted, done, a + b) == CleanOnto(rooted, CleanOnto(rooted, done, a), b)
    decreases |a|
  {
    if a == [] {
      assert a + b == b;
    } else {
      assert (a + b)[1..] == a[1..] + b;
      CleanSum(rooted, Take(rooted, done, a[0]), a[1..], b);
    }
  }

  lemma {:induction false} CleanNames(rooted: bool, done: seq<string>, names: seq<string>)
    requires AllNames(names)
    ensures CleanOnto(rooted, done, names) == done + names
    decreases |names|
  {
    if names != [] {
      CleanNames(rooted, done + [names[0]], names[1..]);
      assert done + [names[0]] + names[1..] == done + names;
    }
  }

  /** Cleaning leaves nothing to clean. */
  lemma {:induction false} CleaningCleans(rooted: bool, done: seq<string>, pieces: seq<string>)
    requires Cleaned(rooted, done) && forall i | 0 <= i < |pieces| :: SlashFree(pieces[i])
    ensures Cleaned(rooted, CleanOnto(rooted, done, pieces))
    decreases |pieces|
  {
    if pieces != [] {
      CleaningCleans(rooted, Take(rooted, done, pieces[0]), pieces[1..]);
    }
  }

  /** Cleaned parts are kept as they are. */
  lemma {:induction false} CleaningKeeps(rooted: bool, done: seq<string>, more: seq<string>)
    requires Cleaned(rooted, done + more)
    ensures CleanOnto(rooted, done, more) == done + more
    decreases |more|
  {
    if more != [] {
      assert (done + more)[|done|] == more[0];
      assert done != [] ==> (done + more)[|done| - 1] == done[|done| - 1];
      assert done + [more[0]] + more[1..] == done + more;
      CleaningKeeps(rooted, done + [more[0]], more[1..]);
    }
  }

  lemma ParsedIsCleaned(s: string)
    ensures Cleaned(Parse(s).rooted, Parse(s).parts)
  {
    SplitPieces(s);
    CleaningCleans(IsAbs(s), [], Split(s));
  }

  /** Printing a cleaned path and reading it gives it back. */
  lemma ParseText(p: Path)
    requires Cleaned(p.rooted, p.parts)
    ensures Parse(Text(p)) == p && Text(p) != ""
  {
    if p.rooted {
      ParseRooted(p.parts);
    } else if p.parts == [] {
      SplitSlashFree(".");
      assert ["."][1..] == [];
    } else {
      JoinFirst(p.parts);
      SplitJoin(p.parts);
      CleaningKeeps(false, [], p.parts);
      assert [] + p.parts == p.parts;
    }
  }

  lemma JoinFirst(parts: seq<string>)
    requires parts != [] && IsPart(parts[0])
    ensures Join(parts) != "" && !IsAbs(Join(parts))
  {
    assert Join(parts)[0] == parts[0][0];
  }

  lemma ParseRooted(parts: seq<string>)
    requires Cleaned(true, parts)
    ensures Parse("/" + Join(parts)) == Path(true, parts)
  {
    var s := "/" + Join(parts);
    SplitSum("", Join(parts));
    assert "" + "/" + Join(parts) == s;
    if parts == [] {
      assert Split(s) == ["", ""];
      assert Split(s)[1..] == [""] && [""][1..] == [];
      assert CleanOnto(true, [], [""]) == [];
    } else {
      SplitJoin(parts);
      assert Split(s)[1..] == parts;
      CleaningKeeps(true, [], parts);
      assert [] + parts == parts;
    }
  }

  /** Joining a root with names appends them to its parts. */
  lemma JoinUnder(root: string, names: seq<string>)
    requires root != "" && AllNames(names)
    ensures Parse(root + "/" + (if names == [] then "." else Join(names)))
            == Path(IsAbs(root), Parse(root).parts + names)
  {
    var rel := if names == [] then "." else Join(names);
    SplitSum(root, rel);
    CleanSum(IsAbs(root), [], Split(root), Split(rel));
    assert (root + "/" + rel)[0] == root[0];
    if names == [] {
      SplitSlashFree(".");
      assert ["."][1..] == [];
      assert Parse(root).parts + names == Parse(root).parts;
    } else {
      SplitJoin(names);
      CleanNames(IsAbs(root), Parse(root).parts, names);
    }
  }

  lemma ParseLonger(a: string, piece: string)
    requires a != "" && SlashFree(piece)
    ensures Parse(a + "/" + piece) == Path(IsAbs(a), Take(IsAbs(a), Parse(a).parts, piece))
  {
    SplitSum(a, piece);
    SplitSlashFree(piece);
    CleanSum(IsAbs(a), [], Split(a), [piece]);
    assert (a + "/" + piece)[0] == a[0];
    assert [piece][1..] == [];
  }

  lemma {:induction false} JoinSnoc(parts: seq<string>, name: string)
    ensures Join(parts + [name]) == if parts == [] then name else Join(parts) + "/" + name
  {
    if parts != [] {
      assert (parts + [name])[1..] == parts[1..] + [name];
      JoinSnoc(parts[1..], name);
    } else {
      assert parts + [name] == [name];
    }
  }

  /** What cleaning does, piece by piece: a name is added, and ".." after it takes it back; "." and
      empty pieces do nothing; ".." at the root does nothing, and at the start of a relative path
      it stays. */
  lemma CleaningLaws(a: string, name: string)
    requires a != "" && SlashFree(name) && name != "" && name != "." && name != ".."
    ensures Parse(a + "/" + name) == Path(a[0] == '/', Parse(a).parts + [name])
    ensures Parse(a + "/" + name + "/..") == Parse(a)
    ensures Parse(a + "/.") == Parse(a) && Parse(a + "/") == Parse(a)
    ensures a[0] == '/' && Parse(a).parts == [] ==> Parse(a + "/..") == Parse(a)
    ensures a[0] != '/' && (Parse(a).parts == [] || Parse(a).parts[|Parse(a).parts| - 1] == "..") ==>
              Parse(a + "/..") == Path(false, Parse(a).parts + [".."])
  {
    ParseLonger(a, name);
    ParseLonger(a + "/" + name, "..");
    ParseLonger(a, ".");
    ParseLonger(a, "");
    ParseLonger(a, "..");
    assert a + "/" + "." == a + "/." && a + "/" + "" == a + "/" && a + "/" + ".." == a + "/..";
    assert a + "/" + name + "/" + ".." == a + "/" + name + "/..";
    assert (a + "/" + name)[0] == a[0];
    assert (Parse(a).parts + [name])[..|Parse(a).parts|] == Parse(a).parts;
  }

  /** Only the root prints as "/", and only the empty relative path as ".". */
  lemma RootOrHere(p: Path)
    requires Cleaned(p.rooted, p.parts)
    ensures Text(p) == "/" <==> p == Path(true, [])
    ensures Text(p) == "." <==> p == Path(false, [])
    ensures Parse("/") == Path(true, []) && Parse(".") == Path(false, [])
  {
    ParseText(p);
    ParseText(Path(true, []));
    ParseText(Path(false, []));
    assert Text(Path(true, [])) == "/" && Text(Path(false, [])) == ".";
  }

  /** The same in text: a name goes behind a slash, and nothing but names is left "/" or ".". */
  lemma CleanedTextGrows(a: string, name: string)
    requires a != "" && SlashFree(name) && name != "" && name != "." && name != ".."
    ensures Clean("/") == "/" && Clean("") == Clean(".") == "."
    ensures Clean(a + "/" + name) ==
            if Clean(a) == "/" then "/" + name else if Clean(a) == "." then name else Clean(a) + "/" + name
  {
    CleaningLaws(a, name);
    JoinSnoc(Parse(a).parts, name);
    ParsedIsCleaned(a);
    RootOrHere(Parse(a));
    assert Clean("/") == "/" && Clean(".") == "." by {
      RootOrHere(Path(true, []));
    }
    assert Split("") == [""] && [""][1..] == [];
  }

  // ---------------------------------------------------------------------------------------
  // Rebasing
  // ---------------------------------------------------------------------------------------

  lemma JoinStart(parts: seq<string>)
    requires parts != [] && SlashFree(parts[0])
    ensures StartsOutside(Join(parts)) <==> parts[0] == ".."
  {
    var s, k := Join(parts), |parts[0]|;
    if |parts| == 1 {
      assert |s| >= 3 ==> s[2] != '/';
      assert |s| >= 3 ==> s[..3][2] == s[2];
    } else {
      assert s == parts[0] + "/" + Join(parts[1..]);
      assert s[..k] == parts[0] && s[k] == '/';
      assert k > 2 ==> s[2] == parts[0][2] != '/';
      assert |s| >= 3 ==> s[..3] == [s[0], s[1], s[2]];
      assert |s| == 2 ==> s == [s[0], s[1]];
      assert k == 2 ==> parts[0] == [s[0], s[1]];
    }
  }

  /** The path is the root or below it, as far as the text tells. */
  predicate Below(root: Path, path: Path) {
    var n := |root.parts|;
    && root.rooted == path.rooted && root.parts <= path.parts
    && (n < |path.parts| ==> path.parts[n] != "..")
  }

  function Remainder(root: Path, path: Path): seq<string>
    requires Below(root, path)
  {
    path.parts[|root.parts|..]
  }

  /** Where the path leaves the root, the root goes up to where nobody can tell. */
  predicate Untold(root: Path, path: Path) {
    || root.rooted != path.rooted
    || var n := CommonLength(root.parts, path.parts);
       n < |root.parts| && root.parts[n] == ".."
  }

  lemma {:induction false} NamesGoOn(rooted: bool, parts: seq<string>, n: nat, i: nat)
    requires Cleaned(rooted, parts) && n <= i < |parts| && parts[n] != ".."
    ensures parts[i] != ".."
  {
    if n < i {
      NamesGoOn(rooted, parts, n, i - 1);
    }
  }

  lemma RemainderIsNames(root: Path, path: Path)
    requires Cleaned(path.rooted, path.parts) && Below(root, path)
    ensures AllNames(Remainder(root, path))
  {
    var n := |root.parts|;
    forall i | n <= i < |path.parts| ensures path.parts[i] != ".." {
      NamesGoOn(path.rooted, path.parts, n, i);
    }
  }

  /** The relative path exists unless the root goes up where they part; it stays inside exactly
      when the path is below the root, and is then what remains. */
  lemma RelInside(root: Path, path: Path)
    requires Cleaned(root.rooted, root.parts) && Cleaned(path.rooted, path.parts)
    ensures var r := Rel(root, path);
            && (r == NoRelativePath <==> Untold(root, path))
            && (r.Resolved? ==> (StartsOutside(r.path) <==> !Below(root, path)))
            && (Below(root, path) ==>
                  r.Resolved? && r.path == if root == path then "." else Join(Remainder(root, path)))
  {
    var base, target := root.parts, path.parts;
    var n := CommonLength(base, target);
    if root != path && root.rooted == path.rooted {
      assert base[..|base|] == base && target[..|target|] == target;
      assert base <= target <==> n == |base|;
      if !Untold(root, path) {
        var parts := Ups(|base| - n) + target[n..];
        if n == |base| {
          assert parts == target[n..];
        } else {
          assert parts[0] == "..";
        }
        JoinStart(parts);
      }
    }
  }

  /** Rebasing succeeds exactly when the path is the container root or below it; the result is
      the host root followed by the same remainder. Otherwise the error says whether the path
      lies outside or whether that cannot be told. This is for any three paths, absolute or
      relative; when one is empty, so is the result. */
  lemma RebaseExact(hostRoot: string, containerRoot: string, containerPath: string)
    ensures var h, c, p := Parse(hostRoot), Parse(containerRoot), Parse(containerPath);
            var r := ResolveHostBindPath(hostRoot, containerRoot, containerPath);
            if hostRoot == "" || containerRoot == "" || containerPath == "" then r == Resolved("")
            else if Below(c, p) then
              && r.Resolved? && r.path == Text(Parse(r.path)) && r.path != ""
              && Parse(r.path) == Path(h.rooted, h.parts + Remainder(c, p))
            else r == if Untold(c, p) then NoRelativePath else OutsideRoot
  {
    var h, c, p := Parse(hostRoot), Parse(containerRoot), Parse(containerPath);
    ParsedIsCleaned(hostRoot);
    ParsedIsCleaned(containerRoot);
    ParsedIsCleaned(containerPath);
    RelInside(c, p);
    if hostRoot != "" && Below(c, p) {
      var rest := Remainder(c, p);
      RemainderIsNames(c, p);
      JoinUnder(hostRoot, rest);
      StillCleaned(h, rest);
      ParseText(Path(h.rooted, h.parts + rest));
      assert c == p <==> rest == [];
    }
  }

  lemma StillCleaned(h: Path, names: seq<string>)
    requires Cleaned(h.rooted, h.parts) && AllNames(names)
    ensures Cleaned(h.rooted, h.parts + names)
  {
    var all := h.parts + names;
    forall i | 0 <= i < |all| && all[i] == ".." ensures !h.rooted && (i == 0 || all[i - 1] == "..") {
      assert i < |h.parts|;
    }
  }

  /** Resolving back with the roots swapped returns the original path, cleaned. */
  lemma RebaseRoundTrip(hostRoot: string, containerRoot: string, containerPath: string)
    requires ResolveHostBindPath(hostRoot, containerRoot, containerPath).Resolved?
    ensures ResolveHostBindPath(containerRoot, hostRoot,
                ResolveHostBindPath(hostRoot, containerRoot, containerPath).path)
            == if hostRoot == "" || containerRoot == "" || containerPath == "" then Resolved("")
               else Resolved(Clean(containerPath))
  {
    var r := ResolveHostBindPath(hostRoot, containerRoot, containerPath).path;
    var h, c, p := Parse(hostRoot), Parse(containerRoot), Parse(containerPath);
    RebaseExact(hostRoot, containerRoot, containerPath);
    RebaseExact(containerRoot, hostRoot, r);
    if r != "" {
      ParsedRemainderIsNames(c, p, containerPath);
      ExtendedIsBelow(h, Remainder(c, p));
      RemainderCompletes(c, p);
    }
  }

  lemma ExtendedIsBelow(root: Path, names: seq<string>)
    requires AllNames(names)
    ensures var path := Path(root.rooted, root.parts + names);
            Below(root, path) && Remainder(root, path) == names
  {
    var path := Path(root.rooted, root.parts + names);
    assert path.parts[|root.parts|..] == names;
  }

  lemma RemainderCompletes(root: Path, path: Path)
    requires Below(root, path)
    ensures Path(root.rooted, root.parts + Remainder(root, path)) == path
  {
  }

  lemma ParsedRemainderIsNames(root: Path, path: Path, s: string)
    requires path == Parse(s) && Below(root, path)
    ensures AllNames(Remainder(root, path))
  {
    ParsedIsCleaned(s);
    RemainderIsNames(root, path);
  }
}
