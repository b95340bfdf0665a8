/** Canonical relative file paths, as managed workspaces accept them. */
module Paths {
  import opened Wrappers

  /** The segments between slashes; splitting "" gives one empty segment. */
  function Segments(path: string): (parts: seq<string>)
    ensures parts != []
  {
    if path == "" then [""]
    else if path[0] == '/' then [""] + Segments(path[1..])
    else var rest := Segments(path[1..]); [[path[0]] + rest[0]] + rest[1..]
  }

  function Join(parts: seq<string>): string
    requires parts != []
  {
    if |parts| == 1 then parts[0] else parts[0] + "/" + Join(parts[1..])
  }

  predicate ForbiddenSegment(part: string) {
    part == "" || part == "." || part == ".."
  }

  /** Strings are taken to be in Unicode normal form C already. */
  function NormalizeFilePath(path: string): Result<string> {
    if path == "" || |path| > 1024 then Err(InvalidOperation)
    else if path[0] == '/' || '\\' in path || '\0' in path || '%' in path then Err(InvalidOperation)
    else if exists i :: 0 <= i < |Segments(path)| && ForbiddenSegment(Segments(path)[i])
    then Err(InvalidOperation)
    else Ok(Join(Segments(path)))
  }

  lemma {:induction false} JoinSegments(path: string)
    ensures Join(Segments(path)) == path
  {
    if path != "" {
      JoinSegments(path[1..]);
      var rest := Segments(path[1..]);
      if path[0] == '/' {
        assert ([""] + rest)[1..] == rest;
      } else if |rest| > 1 {
        assert ([[path[0]] + rest[0]] + rest[1..])[1..] == rest[1..];
      }
    }
  }

  /** Normalizing never rewrites a path: it accepts the path as it is, or refuses it. */
  lemma NormalizeKeepsOrRefuses(path: string)
    ensures NormalizeFilePath(path).Ok? ==> NormalizeFilePath(path).value == path
  {
    JoinSegments(path);
  }
}
