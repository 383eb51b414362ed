/**
 * The `System.IO.Path` operations the client uses, with the Unix directory
 * separator '/', and `Path.Combine` as it behaves on Windows.
 */
module Paths {
  /** The index of the last occurrence of `c` in `s`, or -1. */
  function LastIndexOf(s: string, c: char): (r: int)
    ensures -1 <= r < |s|
    ensures r >= 0 ==> s[r] == c
    ensures forall i :: r < i < |s| ==> s[i] != c
    decreases |s|
  {
    if |s| == 0 then -1
    else if s[|s| - 1] == c then |s| - 1
    else LastIndexOf(s[..|s| - 1], c)
  }

  /**
   * `Path.Combine(a, b)`: `b` alone when it is rooted or `a` is empty, `a`
   * alone when `b` is empty, otherwise the two joined by one '/' unless `a`
   * already ends with one.
   */
  function Combine(a: string, b: string): (r: string)
    ensures b != "" && b[0] != '/' && a != "" && a[|a| - 1] != '/' ==> r == a + "/" + b
  {
    if b == "" then a
    else if b[0] == '/' then b
    else if a == "" then b
    else if a[|a| - 1] == '/' then a + b
    else a + "/" + b
  }

  /** `Path.IsPathRooted` on Windows: a leading separator of either kind, or a drive such as "C:". */
  predicate RootedOnWindows(p: string) {
    (|p| >= 1 && (p[0] == '\\' || p[0] == '/')) || (|p| >= 2 && p[1] == ':')
  }

  /**
   * `Path.Combine(a, b)` on Windows: `b` alone when it is rooted or `a` is
   * empty, `a` alone when `b` is empty, otherwise the two joined by '\\'
   * unless `a` already ends with a separator or a drive's ':'.
   */
  function CombineOnWindows(a: string, b: string): (r: string)
    ensures b != "" && !RootedOnWindows(b) && a != "" && a[|a| - 1] !in {'\\', '/', ':'} ==> r == a + "\\" + b
    ensures b != "" && RootedOnWindows(b) ==> r == b
  {
    if b == "" then a
    else if RootedOnWindows(b) then b
    else if a == "" then b
    else if a[|a| - 1] == '\\' || a[|a| - 1] == '/' || a[|a| - 1] == ':' then a + b
    else a + "\\" + b
  }

  /** `Path.GetFileName`: what follows the last '/'. */
  function FileName(path: string): (r: string)
    ensures '/' !in r
    ensures |r| <= |path| && r == path[|path| - |r|..]
  {
    var k := LastIndexOf(path, '/');
    NoneAfter(path, k, '/');
    path[k + 1..]
  }

  /** The last occurrence is found where `c` occurs and does not occur again. */
  lemma LastIndexOfAt(s: string, c: char, k: int)
    requires 0 <= k < |s| && s[k] == c
    requires forall i :: k < i < |s| ==> s[i] != c
    ensures LastIndexOf(s, c) == k
  {
  }

  /** Appending characters other than `c` leaves the last occurrence of `c` where it was. */
  lemma {:induction false} LastIndexOfAppend(a: string, b: string, c: char)
    requires c !in b
    ensures LastIndexOf(a + b, c) == LastIndexOf(a, c)
    decreases |b|
  {
    if |b| == 0 {
      assert a + b == a;
    } else {
      assert (a + b)[..|a + b| - 1] == a + b[..|b| - 1];
      LastIndexOfAppend(a, b[..|b| - 1], c);
    }
  }

  lemma NoneAfter(s: string, k: int, c: char)
    requires -1 <= k < |s|
    requires forall i :: k < i < |s| ==> s[i] != c
    ensures c !in s[k + 1..]
  {
    var t := s[k + 1..];
    forall j | 0 <= j < |t| ensures t[j] != c {
      assert t[j] == s[k + 1 + j];
    }
  }

  /**
   * `Path.GetExtension`: the file name from its last '.' on, or "" when the
   * file name has no '.' or ends with one.
   */
  function Extension(path: string): (r: string)
    ensures r != "" ==> r[0] == '.' && |r| >= 2
    ensures |r| <= |path|
  {
    var name := FileName(path);
    var k := LastIndexOf(name, '.');
    if k < 0 || k == |name| - 1 then "" else name[k..]
  }
}
