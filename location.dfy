/** The decisions Engine.Load takes before handing content to the component
    compiler: whether the location already names a URL scheme or has to be
    turned into a `file:` URL, and how the compiler's diagnostic becomes the
    returned error message.

    Path handling follows a Unix system: `filepath.IsAbs` means "starts with
    '/'" and `filepath.ToSlash` changes nothing. `filepath.Join` (which also
    cleans the joined path) and `os.Getwd` are parameters. */
module Location {
  import opened Results

  /** strings.Index with a one-character needle: the position of the first c
      in s, or -1 when s has none. */
  function IndexOf(s: string, c: char): (i: int)
    ensures -1 <= i < |s|
    ensures i == -1 <==> c !in s
    ensures 0 <= i ==> s[i] == c && c !in s[..i]
  {
    if s == [] then -1
    else if s[0] == c then 0
    else
      var j := IndexOf(s[1..], c);
      if j == -1 then -1
      else
        assert s[..j + 1] == [s[0]] + s[1..][..j];
        j + 1
  }

  /** The test Load makes before rewriting a location: there is no ':' at
      all, or the first '/' does not come after the first ':' (which includes
      a location with a ':' and no '/'). */
  predicate NeedsFilePrefix(location: string) {
    var colon, slash := IndexOf(location, ':'), IndexOf(location, '/');
    colon == -1 || slash <= colon
  }

  /** A location is left alone exactly when some ':' has no '/' before it and
      a '/' follows it: a scheme followed by a path. */
  lemma {:induction false} KeptIffScheme(location: string)
    ensures !NeedsFilePrefix(location) <==>
      exists i :: 0 <= i < |location| && location[i] == ':' && '/' !in location[..i] && '/' in location[i..]
  {
  }

  /** A location with a ':' but no '/' (such as "qrc:main.qml") is rewritten
      like a plain relative path. */
  lemma ColonWithoutSlashIsRewritten(location: string)
    requires ':' in location && '/' !in location
    ensures NeedsFilePrefix(location)
  {
  }

  /** filepath.IsAbs on a Unix system */
  predicate IsAbs(path: string) {
    |path| > 0 && path[0] == '/'
  }

  /** filepath.ToSlash on a Unix system, where the separator already is '/' */
  function ToSlash(path: string): string {
    path
  }

  const FileScheme := "file:"

  /** The location Load hands to the compiler. `cwd` is the outcome of
      os.Getwd, asked for only when the location is relative; `join` stands
      for filepath.Join. */
  function Resolve(location: string, cwd: Result<string, string>, join: (string, string) -> string): (r: Result<string, Error>)
    ensures !NeedsFilePrefix(location) ==> r == Ok(location)
    ensures r.Err? <==> NeedsFilePrefix(location) && !IsAbs(location) && cwd.Err?
    ensures r.Err? ==> r.error == NoAbsolutePath(cwd.error)
    ensures NeedsFilePrefix(location) && r.Ok? ==>
      |r.value| >= 5 && r.value[..5] == FileScheme &&
      r.value[5..] == if IsAbs(location) then location else join(cwd.value, location)
  {
    if NeedsFilePrefix(location) then
      if IsAbs(location) then
        Ok(FileScheme + ToSlash(location))
      else if cwd.Err? then
        Err(NoAbsolutePath(cwd.error))
      else
        Ok(FileScheme + ToSlash(join(cwd.value, location)))
    else
      Ok(location)
  }

  /** A `file:` URL of an absolute path is a scheme followed by a path. */
  lemma FileUrlKept(path: string)
    requires IsAbs(path)
    ensures !NeedsFilePrefix(FileScheme + path)
  {
    var url := FileScheme + path;
    assert url[..4] == "file" && url[4] == ':' && url[5] == '/';
    assert IndexOf(url, ':') == 4;
    assert IndexOf(url, '/') == 5;
  }

  /** Resolving is idempotent when it yields an absolute path: loading again
      from a location Load has already resolved keeps that location. */
  lemma {:induction false} ResolveIdempotent(location: string, cwd: Result<string, string>, join: (string, string) -> string)
    requires Resolve(location, cwd, join).Ok?
    requires NeedsFilePrefix(location) && !IsAbs(location) ==> IsAbs(join(cwd.value, location))
    ensures Resolve(Resolve(location, cwd, join).value, cwd, join) == Resolve(location, cwd, join)
  {
  }

  /** Every character of s is a newline */
  predicate AllNewlines(s: string) {
    forall i :: 0 <= i < |s| ==> s[i] == '\n'
  }

  /** strings.TrimRight(message, "\n"): the message without its trailing
      newlines. The result is a prefix of the message that does not end in a
      newline, and what was cut off is newlines only. */
  function TrimNewlines(message: string): (r: string)
    ensures |r| <= |message| && r == message[..|r|]
    ensures r == [] || r[|r| - 1] != '\n'
    ensures AllNewlines(message[|r|..])
  {
    if message != [] && message[|message| - 1] == '\n' then
      var r := TrimNewlines(message[..|message| - 1]);
      assert message[|r|..] == message[..|message| - 1][|r|..] + ['\n'];
      r
    else
      message
  }

  /** The trimmed message is determined by the contract above: any split of
      the message into a part not ending in a newline followed by newlines
      only has TrimNewlines as its first part. */
  lemma {:induction false} TrimNewlinesUnique(message: string, text: string, newlines: string)
    requires message == text + newlines && AllNewlines(newlines)
    requires text == [] || text[|text| - 1] != '\n'
    ensures TrimNewlines(message) == text
  {
    var r := TrimNewlines(message);
    assert forall k :: |r| <= k < |message| ==> message[k] == '\n' by {
      forall k | |r| <= k < |message| ensures message[k] == '\n' {
        assert message[k] == message[|r|..][k - |r|];
      }
    }
    assert forall k :: |text| <= k < |message| ==> message[k] == '\n';
    assert |text| > 0 ==> message[|text| - 1] != '\n';
    assert |r| > 0 ==> message[|r| - 1] != '\n';
  }

  /** Trimming twice trims nothing more. */
  lemma TrimNewlinesIdempotent(message: string)
    ensures TrimNewlines(TrimNewlines(message)) == TrimNewlines(message)
  {
  }
}
