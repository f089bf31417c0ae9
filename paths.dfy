/** The two path operations the extension uses, on '/'-separated strings:
    `path.join` of a directory and one entry name, and `path.dirname`. */
module Paths {

  /** `path.join(dir, name)` for a directory and a single entry name. */
  function Join(dir: string, name: string): string
  {
    dir + "/" + name
  }

  /** Index of the last '/' in `p`, or -1 when `p` has none. */
  function LastSlash(p: string): (i: int)
    ensures -1 <= i < |p|
    ensures 0 <= i ==> p[i] == '/'
    ensures forall k :: i < k < |p| ==> p[k] != '/'
  {
    if p == [] then -1
    else if p[|p| - 1] == '/' then |p| - 1
    else LastSlash(p[..|p| - 1])
  }

  /** `path.dirname(p)`: everything before the last separator. */
  function Dirname(p: string): string
  {
    var i := LastSlash(p);
    if i < 0 then "." else if i == 0 then "/" else p[..i]
  }

  /** Taking the directory of a joined path gives back the directory. */
  lemma DirnameOfJoin(dir: string, name: string)
    requires dir != [] && '/' !in name
    ensures Dirname(Join(dir, name)) == dir
  {
    var p := Join(dir, name);
    assert p[|dir|] == '/';
    forall k | |dir| < k < |p|
      ensures p[k] != '/'
    {
      assert p[k] == name[k - |dir| - 1];
    }
    assert LastSlash(p) == |dir|;
    assert p[..|dir|] == dir;
  }

  /** Two entries of the same directory have the same path only when they
      have the same name. */
  lemma JoinInjective(dir: string, a: string, b: string)
    ensures Join(dir, a) == Join(dir, b) <==> a == b
  {
    if Join(dir, a) == Join(dir, b) {
      assert a == Join(dir, a)[|dir| + 1..];
      assert b == Join(dir, b)[|dir| + 1..];
    }
  }
}
