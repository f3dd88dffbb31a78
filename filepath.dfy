/**
  filepath.Join for the paths the marker store builds (a clean directory and one
  plain element), with the split at the last separator that undoes it.
 */
module FilePath {

  const Separator: char := '/'

  /** One path element: non-empty, no separator, neither "." nor "..". */
  predicate IsElement(e: string) {
    |e| > 0 && Separator !in e && e != "." && e != ".."
  }

  /** A directory path as Join leaves it: non-empty, no trailing separator. */
  predicate IsCleanDir(d: string) {
    |d| > 0 && d[|d| - 1] != Separator
  }

  /**
    filepath.Join(dir, elem), which for these arguments adds one separator between
    them: the result names the file elem directly inside dir.
   */
  function Join(dir: string, elem: string): (p: string)
    requires IsCleanDir(dir) && IsElement(elem)
    ensures Parent(p) == dir
    ensures FileName(p) == elem
  {
    LastSeparatorOfJoin(dir, elem);
    dir + [Separator] + elem
  }

  /** Index of the last separator in p, or -1 when there is none. */
  function LastSeparator(p: string): (k: int)
    ensures -1 <= k < |p|
    ensures k >= 0 ==> p[k] == Separator
    ensures forall j :: k < j < |p| ==> p[j] != Separator
    decreases |p|
  {
    if |p| == 0 then -1
    else if p[|p| - 1] == Separator then |p| - 1
    else LastSeparator(p[..|p| - 1])
  }

  /** The part of p after its last separator: the name of the file p denotes. */
  function FileName(p: string): string {
    p[LastSeparator(p) + 1..]
  }

  /** The part of p before its last separator: the directory holding that file. */
  function Parent(p: string): string {
    var k := LastSeparator(p);
    if k < 0 then "" else p[..k]
  }

  /** When elem holds no separator, the last separator of dir + "/" + elem is the one between them. */
  lemma {:induction false} LastSeparatorOfJoin(dir: string, elem: string)
    requires Separator !in elem
    ensures LastSeparator(dir + [Separator] + elem) == |dir|
    decreases |elem|
  {
    var p := dir + [Separator] + elem;
    if elem != [] {
      var init := elem[..|elem| - 1];
      assert elem[|elem| - 1] in elem;
      assert p[..|p| - 1] == dir + [Separator] + init;
      assert Separator !in init by {
        forall i | 0 <= i < |init| ensures init[i] != Separator {
          assert init[i] == elem[i] && elem[i] in elem;
        }
      }
      LastSeparatorOfJoin(dir, init);
    }
  }
}
