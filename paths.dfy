/** System.IO.Path as it behaves on a Unix host: '/' is the only directory
    separator and a rooted path starts with '/'. */
module Paths {
  import opened Text
  import opened Wrappers

  const Sep: char := '/'

  predicate IsPathRooted(p: string)
  {
    |p| > 0 && p[0] == Sep
  }

  /** Drops each separator that is immediately followed by another one. */
  function CollapseSeparators(p: string): (r: string)
    ensures |r| <= |p|
  {
    if |p| == 0 then p
    else if p[0] == Sep && |p| > 1 && p[1] == Sep then CollapseSeparators(p[1..])
    else [p[0]] + CollapseSeparators(p[1..])
  }

  /** Index at which Path.GetDirectoryName cuts `p` before trimming trailing
      separators: the last separator at or after `root`, else `root`. */
  function CutPoint(p: string, root: nat, end: nat): (e: nat)
    requires root <= end <= |p|
    ensures root <= e <= end
    ensures e == root || (e < end && p[e] == Sep)
    ensures forall i :: e < i < end ==> p[i] != Sep
    decreases end
  {
    if end > root && p[end - 1] != Sep then CutPoint(p, root, end - 1)
    else if end > root then end - 1
    else end
  }

  /** Moves `end` back over separators, never below `root`. */
  function TrimSeparatorsBack(p: string, root: nat, end: nat): (e: nat)
    requires root <= end <= |p|
    ensures root <= e <= end
    decreases end
  {
    if end > root && p[end - 1] == Sep then TrimSeparatorsBack(p, root, end - 1) else end
  }

  /** Path.GetDirectoryName: None stands for null (an empty path or the root). */
  function DirectoryName(p: string): (r: Option<string>)
    ensures r.Some? ==> |r.value| <= |p|
  {
    var root := if IsPathRooted(p) then 1 else 0;
    if |p| <= root then None
    else
      var cut := CutPoint(p, root, |p|);
      var end := TrimSeparatorsBack(p, root, cut);
      Some(CollapseSeparators(p[..end]))
  }

  /** Path.GetFileName: the text after the last separator. */
  function FileName(p: string): string
  {
    p[LastIndexOf(p, Sep) + 1..]
  }

  /** Path.GetFileNameWithoutExtension: the file name up to its last '.'. */
  function FileNameWithoutExtension(p: string): string
  {
    var name := FileName(p);
    var dot := LastIndexOf(name, '.');
    if dot < 0 then name else name[..dot]
  }

  /** Path.Combine(a, b). */
  function Combine(a: string, b: string): string
  {
    if |a| == 0 then b
    else if |b| == 0 then a
    else if IsPathRooted(b) then b
    else if a[|a| - 1] == Sep then a + b
    else a + [Sep] + b
  }

  /** Resolves "." and ".." segments; ".." at the root stays at the root. */
  function ResolveSegments(done: seq<string>, todo: seq<string>): seq<string>
    decreases |todo|
  {
    if todo == [] then done
    else if todo[0] == "." then ResolveSegments(done, todo[1..])
    else if todo[0] == ".." then
      ResolveSegments(if done == [] then [] else done[..|done| - 1], todo[1..])
    else ResolveSegments(done + [todo[0]], todo[1..])
  }

  function JoinSegments(segs: seq<string>): string
  {
    if segs == [] then "" else [Sep] + segs[0] + JoinSegments(segs[1..])
  }

  /** Path.GetFullPath, with `cwd` (rooted) standing for the process's current
      directory. */
  function FullPath(p: string, cwd: string): (r: string)
    ensures IsPathRooted(r)
  {
    var abs := if IsPathRooted(p) then p else Combine(cwd, p);
    var segs := ResolveSegments([], Split(abs, Sep));
    if segs == [] then [Sep]
    else
      var body := JoinSegments(segs);
      assert body[0] == Sep;
      if |abs| > 0 && abs[|abs| - 1] == Sep then body + [Sep] else body
  }
}
