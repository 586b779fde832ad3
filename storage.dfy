/**
 * The conversations directory: one `<name>.json` file per conversation. The
 * directory is modelled as a map from file name to the message list the file
 * holds (serialisation is taken to be lossless).
 */
module Storage {
  import opened Messages

  type Files = map<string, seq<Message>>

  const JsonSuffix: string := ".json"

  /** Where the conversations live below the home directory. */
  function ConversationsDir(home: string): string
  {
    home + "/.ai_cli/conversations"
  }

  predicate EndsWithJson(f: string)
  {
    |f| >= |JsonSuffix| && f[|f| - |JsonSuffix|..] == JsonSuffix
  }

  /** The file name of a conversation. */
  function FileName(name: string): (f: string)
    ensures EndsWithJson(f) && |f| == |name| + 5 && f[..|name|] == name
  {
    name + JsonSuffix
  }

  /** Distinct names are stored in distinct files. */
  lemma FileNameInjective(a: string, b: string)
    requires FileName(a) == FileName(b)
    ensures a == b
  {
  }

  /** POSIX `os.path.join` of a directory and one more component: an absolute
      component replaces the directory, and no separator is doubled. */
  function JoinPath(dir: string, file: string): string
  {
    if |file| > 0 && file[0] == '/' then file
    else if dir == "" || dir[|dir| - 1] == '/' then dir + file
    else dir + "/" + file
  }

  /** Index of the last occurrence of `c` in `s`, or -1. */
  function LastIndexOf(s: string, c: char): (i: int)
    ensures -1 <= i < |s|
    ensures i >= 0 ==> s[i] == c
    ensures forall j :: i < j < |s| ==> s[j] != c
  {
    if s == [] then -1
    else if s[|s| - 1] == c then |s| - 1
    else LastIndexOf(s[..|s| - 1], c)
  }

  predicate HasNonDot(s: string)
  {
    exists i :: 0 <= i < |s| && s[i] != '.'
  }

  /** `os.path.splitext(f)[0]` for a bare file name: the extension starts at the
      last dot, unless nothing but dots comes before that dot. */
  function Root(f: string): string
  {
    var dot := LastIndexOf(f, '.');
    if dot >= 0 && HasNonDot(f[..dot]) then f[..dot] else f
  }

  /** The conversation names listed for a directory: its `.json` entries with
      the extension split off. */
  function ListNames(entries: set<string>): set<string>
  {
    set f | f in entries && EndsWithJson(f) :: Root(f)
  }

  /** Loading: the stored list, or the empty list when there is no such file. */
  function Load(files: Files, name: string): seq<Message>
  {
    if FileName(name) in files then files[FileName(name)] else []
  }

  /** Saving overwrites the whole file. */
  function Save(files: Files, name: string, msgs: seq<Message>): Files
  {
    files[FileName(name) := msgs]
  }

  /** Deleting removes the file, if any. */
  function Delete(files: Files, name: string): Files
  {
    files - {FileName(name)}
  }

  /** A conversation path is the directory, a separator, the name and `.json`,
      unless the name is absolute. */
  lemma ConversationPathShape(home: string, name: string)
    ensures |name| > 0 && name[0] == '/' ==>
      JoinPath(ConversationsDir(home), FileName(name)) == name + ".json"
    ensures !(|name| > 0 && name[0] == '/') ==>
      JoinPath(ConversationsDir(home), FileName(name)) == ConversationsDir(home) + "/" + name + ".json"
  {
  }

  /** The extension of a `.json` file starts at the dot of its suffix. */
  lemma RootOfJsonFile(f: string)
    requires EndsWithJson(f)
    ensures Root(f) == if HasNonDot(f[..|f| - 5]) then f[..|f| - 5] else f
  {
    assert f[|f| - 5..][0] == '.';
    forall j | |f| - 5 < j < |f|
      ensures f[j] != '.'
    {
      assert f[j] == f[|f| - 5..][j - (|f| - 5)];
    }
  }

  /** Splitting the extension off a conversation file name gives the name back
      exactly when the name has a character other than a dot. */
  lemma NameRoundTrip(name: string)
    ensures Root(FileName(name)) == name <==> HasNonDot(name)
  {
    var f := FileName(name);
    RootOfJsonFile(f);
    assert f[..|f| - 5] == name;
  }

  /** A saved conversation whose name has a non-dot character is listed under its name. */
  lemma SavedNameIsListed(entries: set<string>, name: string)
    requires FileName(name) in entries && HasNonDot(name)
    ensures name in ListNames(entries)
  {
    NameRoundTrip(name);
  }

  /** A conversation whose name is only dots (or empty) is listed under its file name. */
  lemma DotNameListedAsFileName(entries: set<string>, name: string)
    requires FileName(name) in entries && !HasNonDot(name)
    ensures FileName(name) in ListNames(entries)
  {
  }

  /** Every listed name comes from a `.json` entry: either the conversation of
      that name, or an entry whose stem is only dots, listed whole. */
  lemma ListedNameOrigin(entries: set<string>, name: string)
    requires name in ListNames(entries)
    ensures FileName(name) in entries
         || (name in entries && EndsWithJson(name) && !HasNonDot(name[..|name| - 5]))
  {
    var f :| f in entries && EndsWithJson(f) && Root(f) == name;
    RootOfJsonFile(f);
    if HasNonDot(f[..|f| - 5]) {
      assert f == f[..|f| - 5] + JsonSuffix;
    }
  }

  /** Load after save gives back exactly what was saved. */
  lemma LoadAfterSave(files: Files, name: string, msgs: seq<Message>)
    ensures Load(Save(files, name, msgs), name) == msgs
  {
  }

  /** Saving the same list twice leaves the same directory as saving it once. */
  lemma SaveIdempotent(files: Files, name: string, msgs: seq<Message>)
    ensures Save(Save(files, name, msgs), name, msgs) == Save(files, name, msgs)
  {
  }

  /** Saving one conversation does not change what another one loads. */
  lemma SaveKeepsOthers(files: Files, name: string, other: string, msgs: seq<Message>)
    requires other != name
    ensures Load(Save(files, name, msgs), other) == Load(files, other)
  {
    if FileName(other) == FileName(name) {
      FileNameInjective(other, name);
    }
  }

  /** An absent conversation loads as the empty list, which cannot be told
      apart from a conversation stored empty. */
  lemma LoadAbsentIsEmpty(files: Files, name: string)
    requires FileName(name) !in files
    ensures Load(files, name) == [] == Load(Save(files, name, []), name)
  {
  }

  /** After delete, load finds nothing. */
  lemma LoadAfterDelete(files: Files, name: string)
    ensures FileName(name) !in Delete(files, name)
    ensures Load(Delete(files, name), name) == []
  {
  }
}
