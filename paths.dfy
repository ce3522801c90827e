/**
 * File-system paths, as the server (java.nio `Path.resolve`) and the ingestion
 * script (Node's `path.join`) build them. A path is absolute or relative and
 * holds a list of names; Unix separators only.
 */
module Paths {
  import opened Wrappers

  datatype Path = Path(absolute: bool, names: seq<string>)

  /** A name as a path holds it: not empty and without a separator. */
  predicate IsName(s: string) {
    s != [] && '/' !in s
  }

  // ---------------------------------------------------------------------------
  // Splitting a path string
  // ---------------------------------------------------------------------------

  /** The names of `s` after the partial name `cur`: `s` split on '/', empty names dropped. */
  function SegmentsFrom(s: string, cur: string): (r: seq<string>)
    requires '/' !in cur
    ensures forall x :: x in r ==> IsName(x)
    decreases |s|
  {
    if s == [] then
      (if cur == [] then [] else [cur])
    else if s[0] == '/' then
      (if cur == [] then [] else [cur]) + SegmentsFrom(s[1..], [])
    else
      SegmentsFrom(s[1..], cur + [s[0]])
  }

  /** The names of a path string: split on '/', empty names (from `//` or a trailing `/`) dropped. */
  function Segments(s: string): (r: seq<string>)
    ensures forall x :: x in r ==> IsName(x)
  {
    SegmentsFrom(s, [])
  }

  lemma {:induction false} SegmentsFromName(s: string, cur: string)
    requires '/' !in cur && '/' !in s && cur + s != []
    ensures SegmentsFrom(s, cur) == [cur + s]
    decreases |s|
  {
    if s == [] {
      assert cur + s == cur;
    } else {
      assert s[0] != '/' by { assert s[0] in s; }
      assert '/' !in cur + [s[0]];
      assert (cur + [s[0]]) + s[1..] == cur + s;
      SegmentsFromName(s[1..], cur + [s[0]]);
    }
  }

  /** A name splits into itself. */
  lemma SegmentsOfName(s: string)
    requires IsName(s)
    ensures Segments(s) == [s]
  {
    SegmentsFromName(s, []);
    assert [] + s == s;
  }

  /** `Path.of(s)`: absolute when it starts with '/'. */
  function ParsePath(s: string): (p: Path)
    ensures p.absolute <==> |s| > 0 && s[0] == '/'
    ensures forall x :: x in p.names ==> IsName(x)
  {
    Path(|s| > 0 && s[0] == '/', Segments(s))
  }

  // ---------------------------------------------------------------------------
  // java.nio: resolve and getFileName
  // ---------------------------------------------------------------------------

  /**
   * `p.resolve(other)`: an absolute `other` replaces `p`, an empty one leaves `p`,
   * any other is appended name by name. Nothing is normalised.
   */
  function Resolve(p: Path, other: string): (r: Path)
    ensures Relative(other) ==> && r.absolute == p.absolute
                                && p.names <= r.names
                                && |r.names| == |p.names| + |Segments(other)|
    ensures !Relative(other) ==> r.absolute && r.names == Segments(other)
  {
    var o := ParsePath(other);
    if o.absolute then o
    else if o.names == [] then p
    else Path(p.absolute, p.names + o.names)
  }

  /** Resolving a name appends exactly that name. */
  lemma ResolveName(p: Path, name: string)
    requires IsName(name)
    ensures Resolve(p, name) == Path(p.absolute, p.names + [name])
  {
    SegmentsOfName(name);
  }

  /** A string that does not start with '/': resolving it never replaces the base path. */
  predicate Relative(s: string) {
    s == [] || s[0] != '/'
  }

  /** Resolving a relative string appends its names, and an empty one appends nothing. */
  lemma ResolveRelative(p: Path, other: string)
    requires Relative(other)
    ensures Resolve(p, other) == Path(p.absolute, p.names + Segments(other))
  {
    if Segments(other) == [] {
      assert p.names + Segments(other) == p.names;
    }
  }

  /** `getFileName()`: the last name, or `null` for a path without names. */
  function FileName(p: Path): (r: Option<string>)
    ensures r.Some? <==> p.names != []
    ensures r.Some? ==> r.value == p.names[|p.names| - 1]
  {
    if p.names == [] then None else Some(p.names[|p.names| - 1])
  }

  // ---------------------------------------------------------------------------
  // Normalisation: what the kernel makes of "." and "..", and what Node's
  // path.normalize computes
  // ---------------------------------------------------------------------------

  /**
   * One name folded onto the names already normalised: "." vanishes; ".." drops
   * the last name when there is one that is not itself "..", is dropped at the
   * root of an absolute path, and is kept at the head of a relative one.
   */
  function Step(absolute: bool, acc: seq<string>, name: string): seq<string> {
    if name == "." || name == "" then acc
    else if name == ".." then
      if acc != [] && acc[|acc| - 1] != ".." then acc[..|acc| - 1]
      else if absolute then acc
      else acc + [".."]
    else acc + [name]
  }

  /** The fold of Step over `names`, from the left. */
  function NormalizeFrom(absolute: bool, acc: seq<string>, names: seq<string>): seq<string>
    decreases |names|
  {
    if names == [] then acc
    else NormalizeFrom(absolute, Step(absolute, acc, names[0]), names[1..])
  }

  /** The names left once "." and ".." are worked out. */
  function Normalize(p: Path): Path {
    Path(p.absolute, NormalizeFrom(p.absolute, [], p.names))
  }

  /** Normalising in two pieces is normalising the whole. */
  lemma {:induction false} NormalizeFromAppend(absolute: bool, acc: seq<string>, a: seq<string>, b: seq<string>)
    ensures NormalizeFrom(absolute, NormalizeFrom(absolute, acc, a), b) == NormalizeFrom(absolute, acc, a + b)
    decreases |a|
  {
    if a == [] {
      assert a + b == b;
    } else {
      assert (a + b)[0] == a[0];
      assert (a + b)[1..] == a[1..] + b;
      NormalizeFromAppend(absolute, Step(absolute, acc, a[0]), a[1..], b);
    }
  }

  /** Names other than "." and ".." pass through normalisation unchanged. */
  lemma {:induction false} NormalizeFromPlain(absolute: bool, acc: seq<string>, names: seq<string>)
    requires forall x :: x in names ==> x != "" && x != "." && x != ".."
    ensures NormalizeFrom(absolute, acc, names) == acc + names
    decreases |names|
  {
    if names == [] {
      assert acc + names == acc;
    } else {
      assert names[0] in names;
      assert forall x :: x in names[1..] ==> x in names;
      assert (acc + [names[0]]) + names[1..] == acc + names;
      NormalizeFromPlain(absolute, acc + [names[0]], names[1..]);
    }
  }

  /** Normalising is idempotent. */
  lemma NormalizeIdempotent(p: Path)
    ensures Normalize(Normalize(p)) == Normalize(p)
  {
    NormalizedShape(p.absolute, [], p.names);
    var n := NormalizeFrom(p.absolute, [], p.names);
    NormalizedIsFixed(p.absolute, [], n);
    assert [] + n == n;
  }

  /**
   * What normalisation leaves: no ".", no empty name, and ".." only in a leading
   * run, which an absolute path never has.
   */
  predicate NormalForm(absolute: bool, names: seq<string>) {
    && (forall i :: 0 <= i < |names| ==> names[i] != "." && names[i] != "")
    && (forall i, j :: 0 <= i < j < |names| && names[j] == ".." ==> names[i] == "..")
    && (absolute ==> ".." !in names)
  }

  lemma {:induction false} NormalizedShape(absolute: bool, acc: seq<string>, names: seq<string>)
    requires NormalForm(absolute, acc)
    ensures NormalForm(absolute, NormalizeFrom(absolute, acc, names))
    decreases |names|
  {
    if names != [] {
      var next := Step(absolute, acc, names[0]);
      assert NormalForm(absolute, next);
      NormalizedShape(absolute, next, names[1..]);
    }
  }

  /** Folding names already in normal form onto a normal prefix appends them. */
  lemma {:induction false} NormalizedIsFixed(absolute: bool, acc: seq<string>, names: seq<string>)
    requires NormalForm(absolute, acc + names)
    ensures NormalizeFrom(absolute, acc, names) == acc + names
    decreases |names|
  {
    if names == [] {
      assert acc + names == acc;
    } else {
      var x := names[0];
      assert (acc + names)[|acc|] == x;
      if x == ".." {
        assert !absolute;
        assert forall i :: 0 <= i < |acc| ==> acc[i] == ".." by {
          forall i | 0 <= i < |acc| ensures acc[i] == ".." {
            assert (acc + names)[i] == acc[i];
          }
        }
        assert acc == [] || acc[|acc| - 1] == "..";
      }
      assert Step(absolute, acc, x) == acc + [x];
      assert (acc + [x]) + names[1..] == acc + names;
      NormalizedIsFixed(absolute, acc + [x], names[1..]);
    }
  }

  // ---------------------------------------------------------------------------
  // Node's path.join
  // ---------------------------------------------------------------------------

  /** Whether the first non-empty argument starts with '/', which makes the joined string absolute. */
  function JoinIsAbsolute(parts: seq<string>): bool
    decreases |parts|
  {
    if parts == [] then false
    else if parts[0] == [] then JoinIsAbsolute(parts[1..])
    else parts[0][0] == '/'
  }

  /** The names of all arguments, in order. */
  function JoinNames(parts: seq<string>): (r: seq<string>)
    ensures forall x :: x in r ==> IsName(x)
    decreases |parts|
  {
    if parts == [] then []
    else
      var rest := JoinNames(parts[1..]);
      assert forall x :: x in Segments(parts[0]) + rest ==> x in Segments(parts[0]) || x in rest;
      Segments(parts[0]) + rest
  }

  /**
   * `path.join(...parts)`: the non-empty arguments glued with '/', then
   * normalised. An empty result (Node's ".") is the relative path without names.
   */
  function Join(parts: seq<string>): Path {
    Normalize(Path(JoinIsAbsolute(parts), JoinNames(parts)))
  }

  /**
   * `path.join(String(p), part)`: the names of `part` appended to the rendering of
   * `p` (which reads back as `p`), then normalised.
   */
  function JoinTo(p: Path, part: string): Path {
    Normalize(Path(p.absolute, p.names + Segments(part)))
  }

  /** Arguments that all are relative never make the joined string absolute. */
  lemma {:induction false} JoinOfRelativeIsRelative(parts: seq<string>)
    requires forall i :: 0 <= i < |parts| ==> Relative(parts[i])
    ensures !JoinIsAbsolute(parts)
    decreases |parts|
  {
    if parts != [] {
      assert Relative(parts[0]);
      JoinOfRelativeIsRelative(parts[1..]);
    }
  }

  /** `path.join(base, a, b, c)` with relative `a`, `b`, `c`: the base decides whether it is absolute. */
  lemma JoinFour(base: string, a: string, b: string, c: string)
    requires Relative(a) && Relative(b) && Relative(c)
    ensures Join([base, a, b, c])
            == Normalize(Path(ParsePath(base).absolute, Segments(base) + Segments(a) + Segments(b) + Segments(c)))
  {
    var parts := [base, a, b, c];
    assert parts[1..] == [a, b, c];
    assert [a, b, c][1..] == [b, c];
    assert [b, c][1..] == [c];
    assert [c][1..] == [];
    assert JoinNames([c]) == Segments(c) + [];
    assert JoinNames([b, c]) == Segments(b) + JoinNames([c]);
    assert JoinNames([a, b, c]) == Segments(a) + JoinNames([b, c]);
    assert JoinNames(parts) == Segments(base) + JoinNames([a, b, c]);
    assert JoinNames(parts) == Segments(base) + Segments(a) + Segments(b) + Segments(c);
    JoinOfRelativeIsRelative([a, b, c]);
    assert JoinIsAbsolute(parts) == ParsePath(base).absolute;
  }

  /** Joining onto a path already joined is joining everything at once. */
  lemma JoinOnto(p: Path, name: string)
    ensures Normalize(Path(Normalize(p).absolute, Normalize(p).names + Segments(name)))
            == Normalize(Path(p.absolute, p.names + Segments(name)))
  {
    NormalizeFromAppend(p.absolute, [], p.names, Segments(name));
    var n := NormalizeFrom(p.absolute, [], p.names);
    NormalizedShape(p.absolute, [], p.names);
    NormalizedIsFixed(p.absolute, [], n);
    assert [] + n == n;
    NormalizeFromAppend(p.absolute, [], n, Segments(name));
  }
}
