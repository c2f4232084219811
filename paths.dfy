/** Slash-separated file paths, as `path/filepath` treats them on a Unix host. */
module Paths {

  type Path = string

  /** `filepath.IsAbs` on Unix: the path starts at the root. */
  predicate IsAbs(p: Path) {
    |p| > 0 && p[0] == '/'
  }

  /** `filepath.Join(dir, elem)`: empty parts are ignored and exactly one
      separator is put between the two parts. Lexical cleaning of `.` and
      `..` elements is not modelled. */
  function Join(dir: Path, elem: string): (p: Path)
    ensures IsAbs(dir) ==> IsAbs(p)
    ensures dir == "" ==> p == elem
    ensures elem == "" ==> p == dir
    ensures dir != "" && elem != "" ==> |p| >= |dir| + |elem| && p[..|dir|] == dir && p[|p| - |elem|..] == elem
  {
    if dir == "" then elem
    else if elem == "" then dir
    else if dir[|dir| - 1] == '/' then dir + elem
    else dir + "/" + elem
  }

  /** Inside one directory, different names give different paths: a write
      for one name never lands on the file of another. */
  lemma JoinInjective(dir: Path, a: string, b: string)
    requires Join(dir, a) == Join(dir, b)
    ensures a == b
  {
    if dir != "" && a != "" && b != "" {
      var p := Join(dir, a);
      var k := if dir[|dir| - 1] == '/' then |dir| else |dir| + 1;
      assert |p| == k + |a|;
      assert p[k..] == a;
      assert p[k..] == b;
    }
  }
}
