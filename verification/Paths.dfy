/** Lexical path containment of the file routes. A rooted path is its list of components; `same` is
    the platform's comparison of two components (it ignores case on Windows). */
module Paths {
  import opened Domain

  type Component = string
  type Comparison = f: (Component, Component) -> bool | forall a :: f(a, a) witness (a, b) => true

  function Split(s: string): (r: seq<Component>)
    ensures |r| >= 1
    ensures forall c | c in r :: '/' !in c
  {
    if s == [] then [""]
    else
      var rest := Split(s[1..]);
      if s[0] == '/' then [""] + rest else [[s[0]] + rest[0]] + rest[1..]
  }

  function Render(comps: seq<Component>): string {
    if comps == [] then "" else if |comps| == 1 then comps[0] else comps[0] + "/" + Render(comps[1..])
  }

  function Enter(at: seq<Component>, c: Component): seq<Component> {
    if c == "" || c == "." then at
    else if c == ".." then (if at == [] then [] else at[..|at| - 1])
    else at + [c]
  }

  /** filepath.Clean of a rooted path: walk the components, staying put at the root. */
  function Clean(at: seq<Component>, comps: seq<Component>): seq<Component>
    decreases |comps|
  {
    if comps == [] then at else Clean(Enter(at, comps[0]), comps[1..])
  }

  function Abs(cwd: seq<Component>, path: string): seq<Component> {
    if path != "" && path[0] == '/' then Clean([], Split(path)) else Clean(cwd, Split(path))
  }

  function TrimSlashes(s: string): string {
    if s != "" && s[0] == '/' then TrimSlashes(s[1..]) else s
  }

  function CommonLength(base: seq<Component>, target: seq<Component>, same: Comparison): (n: nat)
    ensures n <= |base| && n <= |target|
  {
    if base == [] || target == [] || !same(base[0], target[0]) then 0
    else 1 + CommonLength(base[1..], target[1..], same)
  }

  function Ups(n: nat): (r: seq<Component>)
    ensures |r| == n && forall c | c in r :: c == ".."
  {
    if n == 0 then [] else [".."] + Ups(n - 1)
  }

  /** filepath.Rel between two rooted paths. */
  function Rel(base: seq<Component>, target: seq<Component>, same: Comparison): string {
    var n := CommonLength(base, target, same);
    var comps := Ups(|base| - n) + target[n..];
    if comps == [] then "." else Render(comps)
  }

  function SafeJoin(cwd: seq<Component>, base: string, rel: string, same: Comparison): Option<seq<Component>> {
    if base == "" then None
    else
      var absBase := Abs(cwd, base);
      var trimmed := TrimSlashes(rel);
      if '\\' in trimmed then None
      else
        var absJoined := Clean(absBase, Split(trimmed));
        var relPath := Rel(absBase, absJoined, same);
        if relPath == ".." || "../" <= relPath then None else Some(absJoined)
  }

  // Properties

  predicate Normal(comps: seq<Component>) {
    forall c | c in comps :: c != "" && c != "." && c != ".." && '/' !in c
  }

  lemma {:induction false} CleanIsNormal(at: seq<Component>, comps: seq<Component>)
    requires Normal(at) && forall c | c in comps :: '/' !in c
    ensures Normal(Clean(at, comps))
    decreases |comps|
  {
    if comps != [] {
      var c := comps[0];
      assert c in comps;
      forall x | x in Enter(at, c) ensures x != "" && x != "." && x != ".." && '/' !in x {
        assert x in at || x == c;
      }
      CleanIsNormal(Enter(at, comps[0]), comps[1..]);
    }
  }

  lemma {:induction false} TrimChangesNothing(at: seq<Component>, rel: string)
    ensures Clean(at, Split(TrimSlashes(rel))) == Clean(at, Split(rel))
    ensures '\\' in TrimSlashes(rel) <==> '\\' in rel
  {
    if rel != "" && rel[0] == '/' {
      TrimChangesNothing(at, rel[1..]);
      assert Split(rel)[1..] == Split(rel[1..]);
    }
  }

  /** The base contains the target: it is a prefix, component by component. */
  ghost predicate Contains(base: seq<Component>, target: seq<Component>, same: Comparison) {
    |base| <= |target| && forall i | 0 <= i < |base| :: same(base[i], target[i])
  }

  lemma {:induction false} CommonLengthIsFull(base: seq<Component>, target: seq<Component>, same: Comparison)
    ensures CommonLength(base, target, same) == |base| <==> Contains(base, target, same)
  {
    if base != [] && target != [] && same(base[0], target[0]) {
      CommonLengthIsFull(base[1..], target[1..], same);
      if Contains(base, target, same) {
        assert forall i | 0 <= i < |base[1..]| :: base[1..][i] == base[i + 1] && target[1..][i] == target[i + 1];
      }
      if Contains(base[1..], target[1..], same) {
        forall i | 0 <= i < |base| ensures same(base[i], target[i]) {
          if i > 0 { assert same(base[1..][i - 1], target[1..][i - 1]); }
        }
      }
    }
  }

  /** Only a first component that is exactly `..` makes a relative path climb. */
  lemma ClimbsIff(comps: seq<Component>)
    requires comps != [] && '/' !in comps[0]
    ensures Render(comps) == ".." || "../" <= Render(comps) <==> comps[0] == ".."
  {
    var r := Render(comps);
    if |comps| > 1 {
      assert r[|comps[0]|] == '/';
      assert comps[0] == r[..|comps[0]|];
      if "../" <= r {
        assert r[0] == '.' && r[1] == '.' && r[2] == '/';
        assert '/' in r[..|comps[0]|] || |comps[0]| <= 2;
        assert comps[0] == "..";
      }
    } else {
      assert "../"[2] == '/' && r == comps[0] && forall k | 0 <= k < |r| :: r[k] != '/';
      assert !("../" <= r);
    }
  }

  /** Joining succeeds exactly for a non-empty base, a relative path without a backslash, and a cleaned
      result inside the base; the result is that cleaned path. */
  lemma SafeJoinIsExact(cwd: seq<Component>, base: string, rel: string, same: Comparison)
    requires Normal(cwd)
    ensures var absBase := Abs(cwd, base); var joined := Clean(absBase, Split(rel));
            SafeJoin(cwd, base, rel, same) ==
              if base != "" && '\\' !in rel && Contains(absBase, joined, same) then Some(joined) else None
    ensures Normal(Clean(Abs(cwd, base), Split(rel)))
  {
    var absBase := Abs(cwd, base);
    var joined := Clean(absBase, Split(rel));
    CleanIsNormal([], Split(base));
    CleanIsNormal(cwd, Split(base));
    CleanIsNormal(absBase, Split(rel));
    TrimChangesNothing(absBase, rel);
    CommonLengthIsFull(absBase, joined, same);
    var n := CommonLength(absBase, joined, same);
    var comps := Ups(|absBase| - n) + joined[n..];
    if comps != [] {
      assert n == |absBase| ==> comps[0] == joined[n] && joined[n] in joined;
      assert n < |absBase| ==> comps[0] == Ups(|absBase| - n)[0];
      ClimbsIff(comps);
    } else {
      assert n == |absBase|;
    }
  }

  /** How far below its start a relative path ends, if it never climbs above it on the way. */
  function Depth(comps: seq<Component>, d: nat): Option<nat>
    decreases |comps|
  {
    if comps == [] then Some(d)
    else if comps[0] == "" || comps[0] == "." then Depth(comps[1..], d)
    else if comps[0] == ".." then (if d == 0 then None else Depth(comps[1..], d - 1))
    else Depth(comps[1..], d + 1)
  }

  lemma {:induction false} StayingBelow(at: seq<Component>, below: seq<Component>, comps: seq<Component>)
    requires Depth(comps, |below|).Some?
    ensures Clean(at + below, comps) == at + Clean(below, comps)
    ensures |Clean(below, comps)| == Depth(comps, |below|).value
    decreases |comps|
  {
    if comps != [] {
      var c := comps[0];
      if c == "" || c == "." {
        StayingBelow(at, below, comps[1..]);
      } else if c == ".." {
        assert (at + below)[..|at + below| - 1] == at + below[..|below| - 1];
        StayingBelow(at, below[..|below| - 1], comps[1..]);
      } else {
        assert (at + below) + [c] == at + (below + [c]);
        StayingBelow(at, below + [c], comps[1..]);
      }
    }
  }

  /** A path that never climbs above the base is served, as the base followed by its own cleaning;
      names that merely begin with two dots are ordinary names. */
  lemma DescendingIsServed(cwd: seq<Component>, base: string, rel: string, same: Comparison)
    requires Normal(cwd) && base != "" && '\\' !in rel && Depth(Split(rel), 0).Some?
    ensures SafeJoin(cwd, base, rel, same) == Some(Abs(cwd, base) + Clean([], Split(rel)))
  {
    var absBase := Abs(cwd, base);
    StayingBelow(absBase, [], Split(rel));
    assert absBase + [] == absBase;
    SafeJoinIsExact(cwd, base, rel, same);
  }

  lemma {:induction false} SplitName(name: string, rest: string)
    requires '/' !in name
    ensures Split(name) == [name] && Split(name + "/" + rest) == [name] + Split(rest)
  {
    if name == "" {
      assert (name + "/" + rest)[1..] == rest;
    } else {
      SplitName(name[1..], rest);
      assert name == [name[0]] + name[1..];
      assert ([name[1..]] + Split(rest))[1..] == Split(rest);
      assert (name + "/" + rest)[1..] == name[1..] + "/" + rest;
    }
  }

  lemma ReturningWalk(at: seq<Component>, c: Component, d: Component)
    requires Normal([c, d])
    ensures Clean(at + [c], ["..", c, d]) == at + [c, d]
  {
    assert c in [c, d] && d in [c, d];
    var target := ["..", c, d];
    assert target[1..] == [c, d] && [c, d][1..] == [d] && [d][1..] == [];
    assert (at + [c])[..|at + [c]| - 1] == at;
    assert Clean(at + [c], target) == Clean(at, [c, d]);
    assert Clean(at, [c, d]) == Clean(at + [c], [d]);
    assert Clean(at + [c], [d]) == Clean(at + [c] + [d], []);
  }

  function Returning(dir: Component, file: Component): string {
    ".." + "/" + (dir + "/" + file)
  }

  lemma ReturningSplit(dir: Component, file: Component)
    requires '/' !in dir && '/' !in file
    ensures Split(Returning(dir, file)) == ["..", dir, file]
  {
    SplitName(file, "");
    SplitName(dir, file);
    SplitName("..", dir + "/" + file);
  }

  lemma AbsOfName(cwd: seq<Component>, dir: Component)
    requires dir != "" && dir != "." && dir != ".." && '/' !in dir
    ensures Abs(cwd, dir) == cwd + [dir]
  {
    SplitName(dir, "");
    assert dir[0] in dir;
    assert Split(dir) == [dir] && [dir][1..] == [];
    assert Clean(cwd, [dir]) == Clean(Enter(cwd, dir), []);
  }

  /** A rooted base does not depend on the working directory; any other one continues it. */
  lemma AbsIs(cwd: seq<Component>, path: string)
    requires Normal(cwd)
    ensures Abs(cwd, "/" + path) == Clean([], Split(path))
    ensures '/' !in path && path != "" && path != "." && path != ".." ==> Abs(cwd, path) == cwd + [path]
  {
    SplitName("", path);
    assert "" + "/" + path == "/" + path;
    assert ([""] + Split(path))[1..] == Split(path);
    if '/' !in path && path != "" && path != "." && path != ".." {
      AbsOfName(cwd, path);
    }
  }

  /** A path that climbs out and comes back by name is served too. */
  lemma LeavingAndReturningIsServed(cwd: seq<Component>, dir: Component, file: Component, same: Comparison)
    requires Normal(cwd) && Normal([dir, file]) && '\\' !in dir && '\\' !in file
    ensures Depth(Split(Returning(dir, file)), 0).None?
    ensures SafeJoin(cwd, dir, Returning(dir, file), same) == Some(cwd + [dir, file])
  {
    assert dir in [dir, file] && file in [dir, file];
    ReturningSplit(dir, file);
    AbsOfName(cwd, dir);
    ReturningWalk(cwd, dir, file);
    assert Contains(cwd + [dir], cwd + [dir, file], same);
    SafeJoinIsExact(cwd, dir, Returning(dir, file), same);
  }
}
