/** The part of pathlib's POSIX paths the wrapper relies on: building a path
    from a string (which normalises it), rendering it back with str(), taking
    its parent, and the chain of directories mkdir(parents=True) creates. */
module Paths {

  /** A normalised path as pathlib keeps it: whether it is anchored at the
      root, and its components in order. */
  datatype Path = Path(absolute: bool, parts: seq<string>)

  /** A component pathlib can hold: not empty, not ".", no separator. */
  predicate WellFormedPart(part: string) {
    part != "" && part != "." && '/' !in part
  }

  predicate WellFormed(p: Path) {
    forall i :: 0 <= i < |p.parts| ==> WellFormedPart(p.parts[i])
  }

  /** The '/'-separated fields of `s`, as Python's s.split("/") gives them. */
  function Split(s: string): (fields: seq<string>)
    ensures |fields| >= 1
    ensures forall i :: 0 <= i < |fields| ==> '/' !in fields[i]
  {
    if s == [] then [""]
    else
      var rest := Split(s[1..]);
      if s[0] == '/' then [""] + rest
      else [[s[0]] + rest[0]] + rest[1..]
  }

  /** "/".join(parts) */
  function Join(parts: seq<string>): (s: string)
    ensures |parts| > 0 ==> |parts[0]| <= |s| && s[..|parts[0]|] == parts[0]
  {
    if |parts| == 0 then ""
    else if |parts| == 1 then parts[0]
    else parts[0] + "/" + Join(parts[1..])
  }

  /** Drops the empty and "." fields, as pathlib does when it parses a string. */
  function Clean(fields: seq<string>): (parts: seq<string>)
    ensures |parts| <= |fields|
    ensures (forall i :: 0 <= i < |fields| ==> '/' !in fields[i]) ==>
              forall i :: 0 <= i < |parts| ==> WellFormedPart(parts[i])
  {
    if fields == [] then []
    else
      (if fields[0] == "" || fields[0] == "." then [] else [fields[0]]) + Clean(fields[1..])
  }

  /** Path(s): a path anchored at the root exactly when `s` starts with a
      separator, holding the non-trivial components of `s` in order. */
  function ParsePath(s: string): (p: Path)
    ensures WellFormed(p)
    ensures p.absolute <==> (|s| > 0 && s[0] == '/')
  {
    Path(|s| > 0 && s[0] == '/', Clean(Split(s)))
  }

  /** str(p): "/" for the root, "." for the empty relative path. */
  function Str(p: Path): (s: string)
    ensures WellFormed(p) ==> |s| > 0 && (s[0] == '/' <==> p.absolute)
  {
    if p.absolute then "/" + Join(p.parts)
    else if p.parts == [] then "."
    else
      assert WellFormed(p) ==> Join(p.parts)[0] == p.parts[0][0];
      Join(p.parts)
  }

  /** p.parent: the path without its last component; the root and the empty
      relative path are their own parents. */
  function Parent(p: Path): (q: Path)
    ensures q.absolute == p.absolute
    ensures |q.parts| == if p.parts == [] then 0 else |p.parts| - 1
    ensures q.parts <= p.parts
    ensures WellFormed(p) ==> WellFormed(q)
  {
    if p.parts == [] then p else Path(p.absolute, p.parts[..|p.parts| - 1])
  }

  /** `p` and every directory above it: what mkdir(parents=True) leaves in
      place. */
  function Lineage(p: Path): (s: set<Path>)
    ensures forall q :: q in s <==> q.absolute == p.absolute && q.parts <= p.parts
    decreases |p.parts|
  {
    if p.parts == [] then {p}
    else
      var rest := Lineage(Parent(p));
      assert forall q: Path :: q.parts <= p.parts && q.parts != p.parts ==> q.parts <= Parent(p).parts;
      {p} + rest
  }

  lemma {:induction false} SplitPrefix(a: string, t: string)
    requires '/' !in a
    ensures Split(a + t) == [a + Split(t)[0]] + Split(t)[1..]
    decreases |a|
  {
    if a == [] {
      assert a + t == t;
      assert a + Split(t)[0] == Split(t)[0];
      assert Split(t) == [Split(t)[0]] + Split(t)[1..];
    } else {
      assert (a + t)[1..] == a[1..] + t;
      SplitPrefix(a[1..], t);
      assert [a[0]] + (a[1..] + Split(t)[0]) == a + Split(t)[0];
    }
  }

  lemma {:induction false} SplitJoin(parts: seq<string>)
    requires |parts| > 0
    requires forall i :: 0 <= i < |parts| ==> '/' !in parts[i]
    ensures Split(Join(parts)) == parts
    decreases |parts|
  {
    if |parts| == 1 {
      SplitPrefix(parts[0], "");
      assert parts[0] + "" == parts[0];
    } else {
      var tail := "/" + Join(parts[1..]);
      assert Join(parts) == parts[0] + tail;
      SplitPrefix(parts[0], tail);
      SplitJoin(parts[1..]);
      assert Split(tail) == [""] + Split(Join(parts[1..])) by {
        assert tail[1..] == Join(parts[1..]);
      }
      assert parts[0] + "" == parts[0];
    }
  }

  lemma {:induction false} CleanKeeps(parts: seq<string>)
    requires forall i :: 0 <= i < |parts| ==> WellFormedPart(parts[i])
    ensures Clean(parts) == parts
    decreases |parts|
  {
    if parts != [] {
      CleanKeeps(parts[1..]);
      assert [parts[0]] + parts[1..] == parts;
    }
  }

  /** Rendering a well-formed path and parsing it back gives the same path,
      so str() loses nothing and distinct paths render distinctly. */
  lemma {:induction false} ParseStr(p: Path)
    requires WellFormed(p)
    ensures ParsePath(Str(p)) == p
  {
    var s := Str(p);
    if p.absolute {
      if p.parts == [] {
        assert s == "/";
        assert Split(s) == ["", ""] by {
          assert s[1..] == "";
        }
      } else {
        SplitJoin(p.parts);
        assert s[1..] == Join(p.parts);
        assert Split(s) == [""] + p.parts;
        CleanKeeps(p.parts);
        assert ([""] + p.parts)[1..] == p.parts;
      }
    } else if p.parts == [] {
      assert s == ".";
      assert Split(s) == ["."] by {
        assert s[1..] == "";
        assert [s[0]] + "" == ".";
      }
    } else {
      SplitJoin(p.parts);
      CleanKeeps(p.parts);
    }
  }

  /** Parsing a string normalises it once and for all: rendering the result
      and parsing again changes nothing. */
  lemma ParseIdempotent(s: string)
    ensures ParsePath(Str(ParsePath(s))) == ParsePath(s)
  {
    ParseStr(ParsePath(s));
  }

  lemma StrInjective(p: Path, q: Path)
    requires WellFormed(p) && WellFormed(q)
    ensures Str(p) == Str(q) <==> p == q
  {
    ParseStr(p);
    ParseStr(q);
  }
}
