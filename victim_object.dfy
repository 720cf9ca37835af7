/** Choosing the object file to corrupt from the listing of an OSD's PG
    directory, and recovering the object's name from its on-disk file name
    (`find_victim_object`, tasks/scrub_test.py:32-58). The remote `ls` is left
    out: the model starts from the text it printed. */
module VictimObject {
  import opened Results
  import opened PyStrings

  /** Separates the escaped object name from the rest of an on-disk file name;
      entries whose name starts with it are not object files. */
  const Sep: string := "__"

  /** How the object store writes an underscore of an object name on disk. */
  const EscapedUnderscore: string := "\\u"

  datatype ListingError =
    | NoObjectFile   // every listed line starts with `__`: `next` raises StopIteration
    | NoSeparator    // the chosen file name holds no `__`: the two-name unpacking fails

  datatype VictimFile = VictimFile(fileName: string, objectName: string)

  /** Index of the first line that does not start with `__`, the line that
      `next(line for line in ... if not line.startswith('__'))` yields. */
  function FirstObjectFile(lines: seq<string>): (r: Option<nat>)
    ensures r.None? <==> forall k :: 0 <= k < |lines| ==> StartsWith(lines[k], Sep)
    ensures r.Some? ==> r.value < |lines| && !StartsWith(lines[r.value], Sep)
    ensures r.Some? ==> forall j :: 0 <= j < r.value ==> StartsWith(lines[j], Sep)
    decreases |lines|
  {
    if lines == [] then None
    else if !StartsWith(lines[0], Sep) then Some(0)
    else
      match FirstObjectFile(lines[1..])
      case None => None
      case Some(k) => Some(k + 1)
  }

  /** Python `s.replace('\\u', '_')`: every escaped underscore becomes `_`,
      scanning left to right. */
  function Unescape(s: string): (r: string)
    ensures |r| <= |s|
    ensures s != [] ==> r != [] && r[0] == (if StartsWith(s, EscapedUnderscore) then '_' else s[0])
    ensures forall i :: 0 <= i <= |r| ==> !OccursAt(r, EscapedUnderscore, i)
    decreases |s|
  {
    if StartsWith(s, EscapedUnderscore) then
      var tail := Unescape(s[2..]);
      var r := "_" + tail;
      forall i | 1 <= i <= |r| ensures !OccursAt(r, EscapedUnderscore, i) {
        OccursShift(r, EscapedUnderscore, i - 1);
        assert r[1..] == tail;
      }
      r
    else if s == [] then []
    else
      var tail := Unescape(s[1..]);
      var r := [s[0]] + tail;
      assert r[1..] == tail;
      forall i | 1 <= i <= |r| ensures !OccursAt(r, EscapedUnderscore, i) {
        OccursShift(r, EscapedUnderscore, i - 1);
      }
      assert !OccursAt(r, EscapedUnderscore, 0) by {
        if s[0] == '\\' && |s| >= 2 {
          assert s[1] != 'u' by { assert !StartsWith(s, EscapedUnderscore); assert s[..2] == [s[0], s[1]]; }
          assert r[1] == tail[0];
        }
      }
      r
  }

  /** The on-disk spelling of an object name as far as this test decodes it:
      every `_` written as `\u`. The reference for `Unescape`. */
  function Escape(name: string): (r: string)
    ensures '_' !in r
    ensures |r| >= |name|
    decreases |name|
  {
    if name == [] then []
    else (if name[0] == '_' then EscapedUnderscore else [name[0]]) + Escape(name[1..])
  }

  /** `Unescape` recovers every name that holds no backslash from its escaped form. */
  lemma {:induction false} UnescapeEscape(name: string)
    requires '\\' !in name
    ensures Unescape(Escape(name)) == name
    decreases |name|
  {
    if name != [] {
      var e := Escape(name);
      var tail := Escape(name[1..]);
      UnescapeEscape(name[1..]);
      if name[0] == '_' {
        assert e == EscapedUnderscore + tail;
        assert e[..2] == EscapedUnderscore;
        assert e[2..] == tail;
      } else {
        assert e == [name[0]] + tail;
        assert e[1..] == tail;
        assert !StartsWith(e, EscapedUnderscore) by { assert e[0] != '\\'; }
      }
      assert name == [name[0]] + name[1..];
    }
  }

  /** `objname, _ = osdfilename.split('__', 1)` followed by the unescaping. */
  function ObjectNameOfFile(fileName: string): (r: Result<string, ListingError>)
    ensures r.Err? <==> forall i :: 0 <= i <= |fileName| ==> !OccursAt(fileName, Sep, i)
    ensures r.Err? ==> r.error == NoSeparator
  {
    match SplitFirst(fileName, Sep)
    case None => Err(NoSeparator)
    case Some((head, _)) => Ok(Unescape(head))
  }

  /** `r` is the outcome of decoding line `k` of a listing: `k` is the first
      line not hidden behind `__`; decoding fails exactly when that line holds
      no `__`, and otherwise names the file and the unescaped text before its
      first `__`. */
  ghost predicate DecodesLine(lines: seq<string>, k: int, r: Result<VictimFile, ListingError>) {
    && 0 <= k < |lines| && !StartsWith(lines[k], Sep)
    && (forall j :: 0 <= j < k ==> StartsWith(lines[j], Sep))
    && (r == Err(NoSeparator) <==> forall i :: 0 <= i <= |lines[k]| ==> !OccursAt(lines[k], Sep, i))
    && (r.Ok? ==> r.value.fileName == lines[k]
                  && SplitFirst(lines[k], Sep).Some?
                  && r.value.objectName == Unescape(SplitFirst(lines[k], Sep).value.0))
  }

  /** `find_victim_object` on the printed directory listing: the chosen file
      is the first listed line not hidden behind `__`, the search fails only
      when every line is hidden, and the decoded name holds no escaped
      underscore. */
  function VictimObjectName(listing: string): (r: Result<VictimFile, ListingError>)
    ensures r == Err(NoObjectFile) <==> forall k :: 0 <= k < |Split(listing, '\n')| ==> StartsWith(Split(listing, '\n')[k], Sep)
    ensures r.Ok? ==> r.value.fileName in Split(listing, '\n') && !StartsWith(r.value.fileName, Sep)
    ensures r.Ok? ==> forall i :: 0 <= i <= |r.value.objectName| ==> !OccursAt(r.value.objectName, EscapedUnderscore, i)
    ensures r != Err(NoObjectFile) ==> exists k :: DecodesLine(Split(listing, '\n'), k, r)
  {
    var lines := Split(listing, '\n');
    match FirstObjectFile(lines)
    case None => Err(NoObjectFile)
    case Some(k) =>
      var file := lines[k];
      assert file in lines;
      var r := match ObjectNameOfFile(file)
               case Err(e) => Err(e)
               case Ok(name) => Ok(VictimFile(file, name));
      assert DecodesLine(lines, k, r);
      r
  }

  /** `ls` ends its output with a newline, so the last piece of the split is
      the empty line, which is never hidden: for such a listing the search for
      an object file cannot fail. */
  lemma NewlineEndedListing(listing: string)
    requires listing != [] && listing[|listing| - 1] == '\n'
    ensures VictimObjectName(listing) != Err(NoObjectFile)
  {
    var lines := Split(listing, '\n');
    SplitEndsEmpty(listing, '\n');
    assert !StartsWith(lines[|lines| - 1], Sep);
  }

  /** When every real entry is hidden behind `__`, that empty line is chosen
      and decoding it fails, rather than the search. */
  lemma TrailingNewlineListing()
    ensures VictimObjectName("__head_0__1\n") == Err(NoSeparator)
  {
    var lines := ["__head_0__1", ""];
    SplitOfListing(lines);
    OnlyEmptyLineVisible("__head_0__1\n", lines);
  }

  lemma SplitOfListing(lines: seq<string>)
    requires lines == ["__head_0__1", ""]
    ensures Split("__head_0__1\n", '\n') == lines
  {
    assert '\n' !in lines[0] && '\n' !in lines[1];
    SplitJoin(lines, '\n');
    assert Join(lines[1..], '\n') == "";
    assert Join(lines, '\n') == "__head_0__1\n";
  }

  lemma OnlyEmptyLineVisible(listing: string, lines: seq<string>)
    requires lines == ["__head_0__1", ""] && Split(listing, '\n') == lines
    ensures VictimObjectName(listing) == Err(NoSeparator)
  {
    assert lines[0][..2] == Sep;
    assert FirstObjectFile(lines) == Some(1);
    assert ObjectNameOfFile("") == Err(NoSeparator);
  }

  /** The escaped name is everything before the first `__` of a file name
      built from it. */
  lemma EscapedNameIsHead(name: string, rest: string)
    requires '\\' !in name
    ensures ObjectNameOfFile(Escape(name) + Sep + rest) == Ok(name)
  {
    var e := Escape(name);
    var f := e + Sep + rest;
    assert OccursAt(f, Sep, |e|) by { assert f[|e|..|e| + 2] == Sep; }
    forall j | 0 <= j < |e| ensures !OccursAt(f, Sep, j) {
      assert f[j] == e[j] && e[j] in e;
    }
    var split := SplitFirst(f, Sep);
    assert split.Some?;
    var head := split.value.0;
    assert |head| == |e|;
    assert head == f[..|e|] == e;
    UnescapeEscape(name);
  }

  /** Scanning a listing whose lines are some hidden `__` entries, then an
      object file, then anything, picks that file and recovers the object's
      name. `SplitJoin` gives such a listing for any lines without newlines. */
  lemma VictimObjectNameRoundTrip(listing: string, hidden: seq<string>, name: string, rest: string, more: seq<string>)
    requires name != [] && '\\' !in name
    requires forall k :: 0 <= k < |hidden| ==> StartsWith(hidden[k], Sep)
    requires Split(listing, '\n') == hidden + [Escape(name) + Sep + rest] + more
    ensures VictimObjectName(listing) == Ok(VictimFile(Escape(name) + Sep + rest, name))
  {
    var file := Escape(name) + Sep + rest;
    var lines := hidden + [file] + more;
    assert !StartsWith(file, Sep) by { assert file[0] == Escape(name)[0]; }
    FirstObjectFileAfterHidden(hidden, file, more);
    assert lines[|hidden|] == file;
    EscapedNameIsHead(name, rest);
    VictimObjectNameSteps(listing, lines, |hidden|, name);
  }

  lemma VictimObjectNameSteps(listing: string, lines: seq<string>, k: nat, name: string)
    requires Split(listing, '\n') == lines
    requires FirstObjectFile(lines) == Some(k) && k < |lines|
    requires ObjectNameOfFile(lines[k]) == Ok(name)
    ensures VictimObjectName(listing) == Ok(VictimFile(lines[k], name))
  {
  }

  lemma FirstObjectFileAfterHidden(hidden: seq<string>, file: string, more: seq<string>)
    requires forall k :: 0 <= k < |hidden| ==> StartsWith(hidden[k], Sep)
    requires !StartsWith(file, Sep)
    ensures FirstObjectFile(hidden + [file] + more) == Some(|hidden|)
  {
    var lines := hidden + [file] + more;
    assert lines[|hidden|] == file;
    var found := FirstObjectFile(lines);
    assert found.Some?;
  }
}
