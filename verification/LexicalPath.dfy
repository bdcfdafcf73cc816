/** Lexical path normalisation over the components of a Unix path. */
module LexicalPath {
  import opened Wrappers

  datatype Component = RootDir | CurDir | ParentDir | Normal(name: string)

  type Path = seq<Component>

  /** A place in the directory tree: the names that lead to it from the root. */
  type Location = seq<string>

  /** Appending to a path buffer; an absolute component replaces the buffer. */
  function Push(buffer: Path, c: Component): Path {
    if c.RootDir? then [RootDir] else buffer + [c]
  }

  function Parent(p: Path): Path
    requires p != []
  {
    p[..|p| - 1]
  }

  /** What one component does to the normalised prefix. */
  function Absorb(normalized: Path, c: Component): Path {
    match c
    case RootDir => Push(normalized, c)
    case Normal(_) => Push(normalized, c)
    case CurDir => normalized
    case ParentDir =>
      if normalized == [] then Push(normalized, c)
      else match normalized[|normalized| - 1]
        case Normal(_) => Parent(normalized)
        case RootDir => normalized
        case ParentDir => Push(normalized, c)
        case CurDir => normalized // never retained
  }

  function Normalize(path: Path): Path {
    if path == [] then [] else Absorb(Normalize(Parent(path)), path[|path| - 1])
  }

  method LexicalNormalize(path: Path) returns (normalized: Path)
    ensures normalized == Normalize(path)
  {
    normalized := [];
    assert Climbing([], 0);
    for i := 0 to |path|
      invariant normalized == Normalize(path[..i])
      invariant IsNormal(normalized)
    {
      var component := path[i];
      match component {
        case RootDir => normalized := Push(normalized, component);
        case Normal(_) => normalized := Push(normalized, component);
        case CurDir =>
        case ParentDir =>
          if normalized == [] {
            normalized := Push(normalized, component);
          } else {
            match normalized[|normalized| - 1] {
              case Normal(_) => normalized := Parent(normalized);
              case RootDir =>
              case ParentDir => normalized := Push(normalized, component);
              case CurDir => assert false;
            }
          }
      }
      assert Parent(path[..i + 1]) == path[..i];
      AbsorbKeepsNormal(Normalize(path[..i]), component);
    }
    assert path[..|path|] == path;
  }

  // ---- Shape of the result ----

  predicate AllNormal(p: Path) {
    forall i | 0 <= i < |p| :: p[i].Normal?
  }

  /** Names after `k` leading parent steps. */
  predicate Climbing(p: Path, k: nat) {
    k <= |p| && (forall i | 0 <= i < k :: p[i].ParentDir?) && AllNormal(p[k..])
  }

  /** No `.` anywhere; `..` only as a leading run, and never in an absolute path. */
  ghost predicate IsNormal(p: Path) {
    || (p != [] && p[0].RootDir? && AllNormal(p[1..]))
    || exists k: nat :: Climbing(p, k)
  }

  lemma AbsorbKeepsNormal(p: Path, c: Component)
    requires IsNormal(p)
    ensures IsNormal(Absorb(p, c))
  {
    var q := Absorb(p, c);
    if c.RootDir? {
    } else if c.CurDir? || q == p {
    } else if p != [] && p[0].RootDir? {
      assert c.ParentDir? ==> |p| > 1 && q[1..] == Parent(p[1..]);
      assert c.Normal? ==> q[1..] == p[1..] + [c];
    } else {
      var k: nat :| Climbing(p, k);
      assert Climbing(q, if c.ParentDir? && k == |p| then k + 1 else k);
    }
  }

  lemma {:induction false} NormalizeIsNormal(path: Path)
    ensures IsNormal(Normalize(path))
  {
    if path == [] {
      assert Climbing([], 0);
    } else {
      NormalizeIsNormal(Parent(path));
      AbsorbKeepsNormal(Normalize(Parent(path)), path[|path| - 1]);
    }
  }

  lemma ClimbingShortens(p: Path, k: nat)
    requires p != [] && Climbing(p, k)
    ensures Climbing(Parent(p), if k == |p| then k - 1 else k)
  {
    var front := Parent(p);
    assert forall i | 0 <= i < |front| :: front[i] == p[i];
    if k < |p| {
      assert forall i | 0 <= i < |front[k..]| :: front[k..][i] == p[k..][i];
    }
  }

  /** A path is its own normal form exactly when it has the normal shape. */
  lemma {:induction false} NormalFormsAreFixed(path: Path)
    ensures Normalize(path) == path <==> IsNormal(path)
  {
    NormalizeIsNormal(path);
    if path != [] && IsNormal(path) {
      var front, last := Parent(path), path[|path| - 1];
      if path[0].RootDir? {
        if |path| > 1 {
          assert front[0] == path[0];
          assert forall i | 0 <= i < |front[1..]| :: front[1..][i] == path[1..][i];
          assert AllNormal(front[1..]);
          assert last == path[1..][|path| - 2];
          NormalFormsAreFixed(front);
        }
      } else {
        var k: nat :| Climbing(path, k);
        assert k < |path| ==> last == path[k..][|path| - 1 - k];
        ClimbingShortens(path, k);
        NormalFormsAreFixed(front);
      }
    }
  }

  lemma NormalizeIsIdempotent(path: Path)
    ensures Normalize(Normalize(path)) == Normalize(path)
  {
    NormalizeIsNormal(path);
    NormalFormsAreFixed(Normalize(path));
  }

  // ---- Meaning ----

  /** Walks a path from `base` through a symlink-free tree that holds exactly
      the places in `tree`; entering a missing place fails. */
  ghost function Walk(tree: iset<Location>, base: Location, path: Path): Option<Location> {
    if path == [] then Some(base)
    else
      var before := Walk(tree, base, Parent(path));
      if before.None? then None else Enter(tree, before.value, path[|path| - 1])
  }

  ghost function Enter(tree: iset<Location>, here: Location, c: Component): Option<Location> {
    match c
    case RootDir => Some([])
    case CurDir => Some(here)
    case ParentDir => Some(if here == [] then [] else here[..|here| - 1])
    case Normal(name) => if here + [name] in tree then Some(here + [name]) else None
  }

  lemma AbsorbKeepsPlace(tree: iset<Location>, base: Location, p: Path, c: Component)
    requires Walk(tree, base, p).Some?
    requires Enter(tree, Walk(tree, base, p).value, c).Some?
    requires IsNormal(p)
    ensures Walk(tree, base, Absorb(p, c)) == Enter(tree, Walk(tree, base, p).value, c)
  {
    var here := Walk(tree, base, p).value;
    assert Parent(p + [c]) == p;
    assert Walk(tree, base, p + [c]) == Enter(tree, here, c);
    if c.RootDir? {
      assert Parent([RootDir]) == [];
    } else if c.ParentDir? && p != [] {
      var last := p[|p| - 1];
      if last.Normal? {
        var above := Walk(tree, base, Parent(p)).value;
        assert here == above + [last.name];
        assert here[..|here| - 1] == above;
      } else if last.RootDir? {
        assert here == [];
      } else {
        NormalHasNoCurDir(p);
      }
    }
  }

  lemma NormalHasNoCurDir(p: Path)
    requires IsNormal(p) && p != []
    ensures !p[|p| - 1].CurDir?
  {
    if p[0].RootDir? {
      assert |p| > 1 ==> p[|p| - 1] == p[1..][|p| - 2];
    } else {
      var k: nat :| Climbing(p, k);
      assert k < |p| ==> p[|p| - 1] == p[k..][|p| - 1 - k];
    }
  }

  /** Wherever a path leads, from whatever directory and in whatever tree, its
      normal form leads to the same place. */
  lemma {:induction false} NormalizePreservesPlace(tree: iset<Location>, base: Location, path: Path)
    requires Walk(tree, base, path).Some?
    ensures Walk(tree, base, Normalize(path)) == Walk(tree, base, path)
  {
    if path != [] {
      NormalizePreservesPlace(tree, base, Parent(path));
      NormalizeIsNormal(Parent(path));
      AbsorbKeepsPlace(tree, base, Normalize(Parent(path)), path[|path| - 1]);
    }
  }

  /** The converse needs the visited directories to exist: `gone/..` leads
      nowhere when `gone` is missing, yet its normal form is the empty path. */
  lemma NormalFormMayReachMore(base: Location)
    ensures var path := [Normal("gone"), ParentDir];
            && Walk(iset{}, base, path).None?
            && Walk(iset{}, base, Normalize(path)) == Some(base)
  {
    var path := [Normal("gone"), ParentDir];
    assert Parent(path) == [Normal("gone")];
    assert Parent([Normal("gone")]) == [];
    assert Normalize([Normal("gone")]) == [Normal("gone")];
    assert Normalize(path) == Parent([Normal("gone")]);
  }

  // ---- The normal form is canonical ----

  ghost const EVERYTHING: iset<Location> := iset l: Location | true

  lemma {:induction false} EverythingIsReachable(base: Location, path: Path)
    ensures Walk(EVERYTHING, base, path).Some?
  {
    if path != [] {
      EverythingIsReachable(base, Parent(path));
    }
  }

  ghost function Place(base: Location, path: Path): Location {
    EverythingIsReachable(base, path);
    Walk(EVERYTHING, base, path).value
  }

  lemma PlaceStep(base: Location, p: Path)
    requires p != []
    ensures var next := Enter(EVERYTHING, Place(base, Parent(p)), p[|p| - 1]);
            next.Some? && Place(base, p) == next.value
  {
    EverythingIsReachable(base, p);
  }

  ghost predicate SamePlaces(p: Path, q: Path) {
    forall base: Location :: Place(base, p) == Place(base, q)
  }

  function Names(p: Path): (names: Location)
    requires AllNormal(p)
    ensures |names| == |p| && forall i | 0 <= i < |p| :: p[i] == Normal(names[i])
  {
    if p == [] then [] else Names(Parent(p)) + [p[|p| - 1].name]
  }

  lemma {:induction false} PlaceOfAbsolute(base: Location, p: Path)
    requires p != [] && p[0].RootDir? && AllNormal(p[1..])
    ensures Place(base, p) == Names(p[1..])
  {
    PlaceStep(base, p);
    if |p| > 1 {
      var tail := p[1..];
      assert Parent(p)[1..] == Parent(tail);
      assert tail[|tail| - 1] == p[|p| - 1];
      PlaceOfAbsolute(base, Parent(p));
    } else {
      assert p[1..] == [];
    }
  }

  lemma {:induction false} PlaceOfClimb(base: Location, p: Path, k: nat)
    requires Climbing(p, k) && k <= |base|
    ensures Place(base, p) == base[..|base| - k] + Names(p[k..])
  {
    if p != [] {
      PlaceStep(base, p);
      if k == |p| {
        PlaceOfClimb(base, Parent(p), k - 1);
        assert p[k..] == [] && Parent(p)[k - 1..] == [];
        assert Place(base, Parent(p)) == base[..|base| - (k - 1)];
      } else {
        var tail := p[k..];
        assert Parent(p)[k..] == Parent(tail);
        assert tail[|tail| - 1] == p[|p| - 1];
        PlaceOfClimb(base, Parent(p), k);
        }
    }
  }

  lemma NamesInjective(p: Path, q: Path)
    requires AllNormal(p) && AllNormal(q) && Names(p) == Names(q)
    ensures p == q
  {
  }

  lemma AbsoluteCanonical(p: Path, q: Path)
    requires p != [] && p[0].RootDir? && AllNormal(p[1..])
    requires IsNormal(q) && SamePlaces(p, q)
    ensures p == q
  {
    if q != [] && q[0].RootDir? {
      PlaceOfAbsolute([], p);
      PlaceOfAbsolute([], q);
      NamesInjective(p[1..], q[1..]);
      assert p == [p[0]] + p[1..] && q == [q[0]] + q[1..];
    } else {
      // From deep enough below the root a relative path stays below it.
      var k: nat :| Climbing(q, k);
      var base := seq(k + |p|, i => "d");
      PlaceOfAbsolute(base, p);
      PlaceOfClimb(base, q, k);
      assert false;
    }
  }

  /** Paths that climb by different amounts part ways below a directory whose
      names neither of them mentions first. */
  lemma DifferentClimbsPart(p: Path, j: nat, q: Path, k: nat) returns (base: Location)
    requires Climbing(p, j) && Climbing(q, k) && j < k
    ensures Place(base, p) != Place(base, q)
  {
    var stranger := if k < |q| then Names(q[k..])[0] + "x" else "d";
    base := seq(k, i => stranger);
    PlaceOfClimb(base, p, j);
    PlaceOfClimb(base, q, k);
    assert Place(base, p)[0] == stranger;
    assert Place(base, q) == Names(q[k..]);
    if k < |q| {
      assert |Place(base, q)[0]| < |stranger|;
    }
  }

  lemma ClimbsCanonical(p: Path, j: nat, q: Path, k: nat)
    requires Climbing(p, j) && Climbing(q, k) && j <= k
    requires SamePlaces(p, q)
    ensures p == q
  {
    if j < k {
      var base := DifferentClimbsPart(p, j, q, k);
    } else {
      var base := seq(k, i => "d");
      PlaceOfClimb(base, p, j);
      PlaceOfClimb(base, q, k);
      assert Place(base, p) == Place(base, q);
      TailsEqual(base[..|base| - k], Names(p[k..]), Names(q[k..]));
      NamesInjective(p[k..], q[k..]);
      assert p == p[..k] + p[k..] && q == q[..k] + q[k..];
      assert p[..k] == q[..k];
    }
  }

  lemma TailsEqual(a: Location, b: Location, c: Location)
    requires a + b == a + c
    ensures b == c
  {
    assert b == (a + b)[|a|..] && c == (a + c)[|a|..];
  }

  /** Two paths denote the same place from every directory exactly when they
      have the same normal form. */
  lemma NormalFormIsCanonical(p: Path, q: Path)
    ensures SamePlaces(p, q) <==> Normalize(p) == Normalize(q)
  {
    var m, n := Normalize(p), Normalize(q);
    NormalizeIsNormal(p);
    NormalizeIsNormal(q);
    forall base: Location
      ensures Place(base, p) == Place(base, m) && Place(base, q) == Place(base, n)
    {
      EverythingIsReachable(base, p);
      EverythingIsReachable(base, q);
      NormalizePreservesPlace(EVERYTHING, base, p);
      NormalizePreservesPlace(EVERYTHING, base, q);
    }
    if SamePlaces(p, q) {
      assert SamePlaces(m, n) && SamePlaces(n, m);
      NormalPathsCanonical(m, n);
    }
  }

  lemma NormalPathsCanonical(m: Path, n: Path)
    requires IsNormal(m) && IsNormal(n) && SamePlaces(m, n) && SamePlaces(n, m)
    ensures m == n
  {
    if m != [] && m[0].RootDir? {
      AbsoluteCanonical(m, n);
    } else if n != [] && n[0].RootDir? {
      AbsoluteCanonical(n, m);
    } else {
      var j: nat :| Climbing(m, j);
      var k: nat :| Climbing(n, k);
      if j <= k {
        ClimbsCanonical(m, j, n, k);
      } else {
        ClimbsCanonical(n, k, m, j);
      }
    }
  }
}
