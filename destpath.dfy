/**
 * The destination path of a conversion, "<dir>/<name>.<format>", formatted
 * into a fixed 1024-byte buffer: at most 1023 characters survive, the last
 * byte being the terminating NUL.
 */
module DestinationPath {
  import opened MediaTypes

  /** Size of the buffer the path is formatted into. */
  const PATH_BUFFER_SIZE: nat := 1024

  /** The path as the format string spells it, before truncation. */
  function JoinedPath(dir: CString, name: CString, format: CString): string
  {
    dir + "/" + name + "." + format
  }

  function Min(a: int, b: int): int
  {
    if a <= b then a else b
  }

  /**
   * The path snprintf leaves in the buffer: the joined path cut to the
   * buffer's capacity. It is a prefix of the joined path, as long as the
   * joined path or the capacity, whichever is shorter.
   */
  function DestPath(dir: CString, name: CString, format: CString): (r: CString)
    ensures r <= JoinedPath(dir, name, format)
    ensures |r| == Min(|JoinedPath(dir, name, format)|, PATH_BUFFER_SIZE - 1)
  {
    var joined := JoinedPath(dir, name, format);
    assert '\0' !in joined by {
      assert forall c :: c in joined ==> c in dir || c == '/' || c in name || c == '.' || c in format;
    }
    if |joined| < PATH_BUFFER_SIZE then joined else joined[..PATH_BUFFER_SIZE - 1]
  }

  /** The prefix and length stated by DestPath determine the path: no other string meets them. */
  lemma DestPathDetermined(dir: CString, name: CString, format: CString, p: string)
    requires p <= JoinedPath(dir, name, format)
    requires |p| == Min(|JoinedPath(dir, name, format)|, PATH_BUFFER_SIZE - 1)
    ensures p == DestPath(dir, name, format)
  {
    var r := DestPath(dir, name, format);
    assert forall i :: 0 <= i < |p| ==> p[i] == JoinedPath(dir, name, format)[i] == r[i];
  }

  /**
   * A path that fits is kept whole: it starts with the directory, has '/'
   * right after it, and ends with '.' and the format.
   */
  lemma DestPathFits(dir: CString, name: CString, format: CString)
    requires |dir| + |name| + |format| + 2 < PATH_BUFFER_SIZE
    ensures DestPath(dir, name, format) == JoinedPath(dir, name, format)
    ensures DestPath(dir, name, format)[..|dir|] == dir
    ensures DestPath(dir, name, format)[|dir|] == '/'
    ensures DestPath(dir, name, format)[|dir| + 1 + |name|..] == "." + format
  {
    var r := DestPath(dir, name, format);
    assert r == dir + ("/" + name + "." + format);
    assert r == (dir + "/" + name) + ("." + format);
  }

  /**
   * A directory of 1023 characters or more fills the whole buffer: the file
   * name and the format are lost, and the path is the directory cut short.
   */
  lemma LongDirectoryFillsPath(dir: CString, name: CString, format: CString)
    requires |dir| >= PATH_BUFFER_SIZE - 1
    ensures DestPath(dir, name, format) == dir[..PATH_BUFFER_SIZE - 1]
  {
    var joined := JoinedPath(dir, name, format);
    assert joined == dir + ("/" + name + "." + format);
    assert joined[..PATH_BUFFER_SIZE - 1] == dir[..PATH_BUFFER_SIZE - 1];
  }
}
