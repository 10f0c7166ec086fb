/**
 * Choosing the text of a description: stdin, a file (converted from
 * Markdown by its extension), or inline text, which may itself name a file.
 * The filesystem, stdin and the Markdown converter are inputs.
 */
module Convert {
  import opened Wrappers
  import opened Values
  import opened Errors

  /** The path that means "read stdin". */
  const STDIN_PATH := "-"

  /**
   * What the text selection can see of the machine: the regular files and
   * their contents (`os.path.isfile` holds exactly for these, and only these
   * open), what stdin holds, and the GitHub-Markdown to Jira converter
   * applied to a file's contents.
   */
  datatype Host = Host(files: map<string, string>, stdin: string, gfmToJira: string -> string)

  /** The index of the last `c` in `s`, or -1: `s.rfind(c)`. */
  function LastIndexOf(s: string, c: char): (r: int)
    ensures -1 <= r < |s|
    ensures r == -1 ==> forall j :: 0 <= j < |s| ==> s[j] != c
    ensures r >= 0 ==> s[r] == c && forall j :: r < j < |s| ==> s[j] != c
    decreases |s|
  {
    if s == [] then -1
    else if s[|s| - 1] == c then |s| - 1
    else LastIndexOf(s[..|s| - 1], c)
  }

  /** Where the last `c` is, there LastIndexOf finds it. */
  lemma {:induction false} LastIndexOfAt(s: string, c: char, k: int)
    requires 0 <= k < |s| && s[k] == c
    requires forall j :: k < j < |s| ==> s[j] != c
    ensures LastIndexOf(s, c) == k
    decreases |s|
  {
    if k < |s| - 1 {
      LastIndexOfAt(s[..|s| - 1], c, k);
    }
  }

  /** Some character of `s[lo..hi]` is not a dot. */
  predicate HasNonDot(s: string, lo: int, hi: int)
    requires 0 <= lo && hi <= |s|
  {
    exists i :: lo <= i < hi && s[i] != '.'
  }

  /**
   * The extension `os.path.splitext` reports: from the last dot to the end,
   * when that dot comes after the last "/" and the file name has a non-dot
   * character before it (so ".bashrc" has none); otherwise "".
   */
  function Ext(path: string): (e: string)
    ensures |e| <= |path|
    ensures e != "" ==> e[0] == '.' && e == path[|path| - |e|..]
    ensures e != "" ==> forall i :: 0 <= i < |e| ==> e[i] != '/'
    ensures e != "" ==> forall i :: 1 <= i < |e| ==> e[i] != '.'
  {
    var sep := LastIndexOf(path, '/');
    var dot := LastIndexOf(path, '.');
    if dot > sep && HasNonDot(path, sep + 1, dot) then path[dot..] else ""
  }

  /**
   * Where the extension is found: a dot with no dot after it, in a file name
   * (no "/" from `i` on) that has a non-dot character `path[i]` before that
   * dot, starts the extension.
   */
  lemma ExtFound(path: string, d: int, i: int)
    requires 0 <= i < d < |path| && path[d] == '.' && path[i] != '.'
    requires forall j :: d < j < |path| ==> path[j] != '.'
    requires forall j :: i <= j < |path| ==> path[j] != '/'
    ensures Ext(path) == path[d..]
  {
    LastIndexOfAt(path, '.', d);
    var sep := LastIndexOf(path, '/');
    assert sep < i;
    assert HasNonDot(path, sep + 1, d);
  }

  /** Without a dot after the last "/", there is no extension. */
  lemma ExtNone(path: string)
    requires forall j :: LastIndexOf(path, '/') < j < |path| ==> path[j] != '.'
    ensures Ext(path) == ""
  {
  }

  /** The extension examples of `os.path.splitext`. */
  lemma ExtExamples()
    ensures Ext("notes.md") == ".md"
    ensures Ext("archive.tar.gz") == ".gz"
    ensures Ext("README") == ""
    ensures Ext(".bashrc") == ""
    ensures Ext("docs.d/README") == ""
  {
    LastIndexOfAt("notes.md", '.', 5);
    assert "notes.md"[0] != '.';
    LastIndexOfAt("archive.tar.gz", '.', 11);
    assert "archive.tar.gz"[0] != '.';
    LastIndexOfAt(".bashrc", '.', 0);
    LastIndexOfAt("docs.d/README", '/', 6);
    LastIndexOfAt("docs.d/README", '.', 4);
  }

  /**
   * The outcome for an existing file decided by its lower-cased extension:
   * ".md" is converted, ".txt" or none passes `plain` through, anything
   * else is unsupported.
   */
  function ByExtension(host: Host, path: string, plain: string): (r: Result<string, Error>)
    requires path in host.files
    ensures r.Failure? <==> Lower(Ext(path)) !in {".md", ".txt", ""}
    ensures r.Failure? ==> r.error == UnsupportedFormat(Lower(Ext(path)))
    ensures Lower(Ext(path)) == ".md" ==> r == Success(host.gfmToJira(host.files[path]))
    ensures Lower(Ext(path)) in {".txt", ""} ==> r == Success(plain)
  {
    var ext := Lower(Ext(path));
    if ext == ".md" then Success(host.gfmToJira(host.files[path]))
    else if ext == ".txt" || ext == "" then Success(plain)
    else Failure(UnsupportedFormat(ext))
  }

  /**
   * `convert_to_jira`: an existing file path other than "-" decides by its
   * extension; otherwise text that names an existing file decides by that
   * file's extension (passing its contents through); otherwise the text is
   * already Jira markup. The only error is an unsupported extension.
   */
  function ConvertToJira(host: Host, text: string, filePath: Option<string>): (r: Result<string, Error>)
    ensures r.Failure? ==> r.error.UnsupportedFormat?
  {
    if Given(filePath) && filePath.value != STDIN_PATH && filePath.value in host.files then
      ByExtension(host, filePath.value, text)
    else if text != "" && text in host.files then
      ByExtension(host, text, host.files[text])
    else
      Success(text)
  }

  /**
   * `read_description`: a file path wins over inline text; "-" reads stdin
   * verbatim, any other path is read (an unopenable one fails) and converted
   * by its extension; inline text is converted as text that may name a file;
   * with neither, there is no description.
   */
  function ReadDescription(host: Host, inline: Option<string>, filePath: Option<string>): (r: Result<string, Error>)
    ensures r.Failure? ==> r.error.UnsupportedFormat? || r.error.CannotOpen? || r.error.NoDescriptionSource?
  {
    if Given(filePath) then
      var path := filePath.value;
      if path == STDIN_PATH then Success(host.stdin)
      else if path !in host.files then Failure(CannotOpen(path))
      else ConvertToJira(host, host.files[path], filePath)
    else if Given(inline) then
      ConvertToJira(host, inline.value, None)
    else
      Failure(NoDescriptionSource)
  }

  /** "-" is stdin, unconverted, whatever the inline text and whatever the filesystem holds. */
  lemma StdinVerbatim(host: Host, inline: Option<string>)
    ensures ReadDescription(host, inline, Some(STDIN_PATH)) == Success(host.stdin)
  {
  }

  /** A given file path makes the inline text irrelevant. */
  lemma FilePathWins(host: Host, inline: Option<string>, filePath: Option<string>)
    requires Given(filePath)
    ensures ReadDescription(host, inline, filePath) == ReadDescription(host, None, filePath)
  {
  }

  /** The no-source error happens exactly when neither source is given. */
  lemma NoSourceIffNeither(host: Host, inline: Option<string>, filePath: Option<string>)
    ensures ReadDescription(host, inline, filePath) == Failure(NoDescriptionSource) <==> !Given(filePath) && !Given(inline)
  {
    if Given(filePath) && filePath.value != STDIN_PATH && filePath.value in host.files {
      var r := ConvertToJira(host, host.files[filePath.value], filePath);
      assert r.Failure? ==> r.error.UnsupportedFormat?;
    } else if !Given(filePath) && Given(inline) {
      var r := ConvertToJira(host, inline.value, None);
      assert r.Failure? ==> r.error.UnsupportedFormat?;
    }
  }

  /** A readable file's outcome is decided by its extension, the contents passed through for ".txt" or none. */
  lemma FileByExtension(host: Host, path: string, inline: Option<string>)
    requires path != "" && path != STDIN_PATH && path in host.files
    ensures ReadDescription(host, inline, Some(path)) == ByExtension(host, path, host.files[path])
  {
  }

  /** A path that cannot be opened fails before any conversion. */
  lemma MissingFileFails(host: Host, path: string, inline: Option<string>)
    requires path != "" && path != STDIN_PATH && path !in host.files
    ensures ReadDescription(host, inline, Some(path)) == Failure(CannotOpen(path))
  {
  }

  /** Inline text that names no existing file is returned unchanged. */
  lemma InlinePassesThrough(host: Host, text: string)
    requires text !in host.files
    ensures ConvertToJira(host, text, None) == Success(text)
    ensures text != "" ==> ReadDescription(host, Some(text), None) == Success(text)
  {
  }

  /** Inline text naming an existing file yields that file, converted when it is Markdown. */
  lemma InlineNamesFile(host: Host, text: string)
    requires text != "" && text in host.files
    ensures Lower(Ext(text)) in {".txt", ""} ==> ReadDescription(host, Some(text), None) == Success(host.files[text])
    ensures Lower(Ext(text)) == ".md" ==> ReadDescription(host, Some(text), None) == Success(host.gfmToJira(host.files[text]))
    ensures Lower(Ext(text)) !in {".md", ".txt", ""} ==>
      ReadDescription(host, Some(text), None) == Failure(UnsupportedFormat(Lower(Ext(text))))
  {
  }

  /** The extension is compared lower-cased: "NOTES.MD" is Markdown. */
  lemma UpperCaseMarkdown(host: Host)
    requires "NOTES.MD" in host.files
    ensures ReadDescription(host, None, Some("NOTES.MD")) == Success(host.gfmToJira(host.files["NOTES.MD"]))
  {
    LastIndexOfAt("NOTES.MD", '.', 5);
    assert "NOTES.MD"[0] != '.';
    assert Ext("NOTES.MD") == ".MD";
    assert Lower(".MD") == ".md";
  }
}
