/** The Python `str` operations the scrub test relies on, stated on `seq<char>`:
    `find`, `in`, `startswith`, `split(sep)` and `split(sep, 1)`. */
module PyStrings {
  import opened Results

  /** `t` occurs in `s` starting at index `i`. */
  predicate OccursAt(s: string, t: string, i: int) {
    0 <= i && i + |t| <= |s| && s[i..i + |t|] == t
  }

  /** Python `s.startswith(p)`. */
  predicate StartsWith(s: string, p: string) {
    |p| <= |s| && s[..|p|] == p
  }

  lemma OccursShift(s: string, t: string, i: nat)
    requires s != []
    ensures OccursAt(s, t, i + 1) <==> OccursAt(s[1..], t, i)
  {
    if i + 1 + |t| <= |s| {
      assert s[i + 1..i + 1 + |t|] == s[1..][i..i + |t|];
    }
  }

  /** `t` cannot occur in `s` when one of its characters is missing from `s`. */
  lemma MissingCharNoOccurrence(s: string, t: string, k: nat)
    requires k < |t| && t[k] !in s
    ensures forall i :: 0 <= i <= |s| ==> !OccursAt(s, t, i)
  {
    forall i | 0 <= i <= |s| && i + |t| <= |s| ensures !OccursAt(s, t, i) {
      assert s[i..i + |t|][k] == s[i + k];
    }
  }

  /** Python `s.find(t)`: the lowest index at which `t` occurs in `s`, or -1. */
  function Find(s: string, t: string): (r: int)
    ensures -1 <= r <= |s|
    ensures r == -1 <==> forall i :: 0 <= i <= |s| ==> !OccursAt(s, t, i)
    ensures r >= 0 ==> OccursAt(s, t, r) && forall j :: 0 <= j < r ==> !OccursAt(s, t, j)
    decreases |s|
  {
    if StartsWith(s, t) then
      assert OccursAt(s, t, 0);
      0
    else if s == [] then -1
    else
      var k := Find(s[1..], t);
      assert forall j :: 1 <= j <= |s| ==> (OccursAt(s, t, j) <==> OccursAt(s[1..], t, j - 1)) by {
        forall j | 1 <= j <= |s| ensures OccursAt(s, t, j) <==> OccursAt(s[1..], t, j - 1) {
          OccursShift(s, t, j - 1);
        }
      }
      assert !OccursAt(s, t, 0);
      if k == -1 then -1
      else
        assert OccursAt(s, t, k + 1);
        k + 1
  }

  /** Python `t in s` (equivalently `s.find(t) != -1`). */
  predicate Contains(s: string, t: string) {
    Find(s, t) != -1
  }

  /** The inverse of `Split`: Python `sep.join(parts)`. */
  function Join(parts: seq<string>, sep: char): string
    decreases |parts|
  {
    if parts == [] then ""
    else if |parts| == 1 then parts[0]
    else parts[0] + [sep] + Join(parts[1..], sep)
  }

  /** Python `s.split(sep)` for a one-character separator: never empty,
      no piece holds the separator, and joining the pieces gives `s` back. */
  function Split(s: string, sep: char): (parts: seq<string>)
    ensures |parts| >= 1
    ensures forall k :: 0 <= k < |parts| ==> sep !in parts[k]
    ensures Join(parts, sep) == s
    decreases |s|
  {
    if s == [] then [""]
    else
      var rest := Split(s[1..], sep);
      if s[0] == sep then
        assert ([""] + rest)[1..] == rest;
        [""] + rest
      else
        var parts := [[s[0]] + rest[0]] + rest[1..];
        assert parts[1..] == rest[1..];
        assert |rest| > 1 ==> Join(rest, sep) == rest[0] + [sep] + Join(rest[1..], sep);
        assert s == [s[0]] + s[1..];
        parts
  }

  lemma {:induction false} SplitPrefix(a: string, r: string, sep: char)
    requires sep !in a
    ensures Split(a + r, sep) == [a + Split(r, sep)[0]] + Split(r, sep)[1..]
    decreases |a|
  {
    var x := Split(r, sep);
    if a == [] {
      assert a + r == r;
      assert a + x[0] == x[0];
      assert [x[0]] + x[1..] == x;
    } else {
      assert (a + r)[1..] == a[1..] + r;
      SplitPrefix(a[1..], r, sep);
      var rest := Split(a[1..] + r, sep);
      assert rest == [a[1..] + x[0]] + x[1..];
      assert [a[0]] + rest[0] == a + x[0];
      assert rest[1..] == x[1..];
    }
  }

  /** `Split` undoes `Join` when no piece holds the separator. */
  lemma {:induction false} SplitJoin(parts: seq<string>, sep: char)
    requires parts != []
    requires forall k :: 0 <= k < |parts| ==> sep !in parts[k]
    ensures Split(Join(parts, sep), sep) == parts
    decreases |parts|
  {
    if |parts| == 1 {
      SplitPrefix(parts[0], "", sep);
      assert parts[0] + "" == parts[0];
    } else {
      var tail := Join(parts[1..], sep);
      SplitJoin(parts[1..], sep);
      assert parts[0] + [sep] + tail == parts[0] + ([sep] + tail);
      SplitPrefix(parts[0], [sep] + tail, sep);
      assert ([sep] + tail)[1..] == tail;
      assert Split([sep] + tail, sep) == [""] + parts[1..];
      assert parts[0] + "" == parts[0];
      assert parts == [parts[0]] + parts[1..];
    }
  }

  /** `sep.join(parts)` ends with the last part. */
  lemma {:induction false} JoinEndsWithLast(parts: seq<string>, sep: char)
    requires parts != []
    ensures var j, last := Join(parts, sep), parts[|parts| - 1];
            |last| <= |j| && j[|j| - |last|..] == last
    decreases |parts|
  {
    if |parts| > 1 {
      var tail := Join(parts[1..], sep);
      JoinEndsWithLast(parts[1..], sep);
      var last := parts[|parts| - 1];
      assert parts[1..][|parts| - 2] == last;
      var j := parts[0] + [sep] + tail;
      assert j[|j| - |last|..] == tail[|tail| - |last|..];
    }
  }

  /** A text ending in the separator splits into pieces the last of which is
      empty: `"a\n".split("\n") == ["a", ""]`. */
  lemma SplitEndsEmpty(s: string, sep: char)
    requires s != [] && s[|s| - 1] == sep
    ensures Split(s, sep)[|Split(s, sep)| - 1] == ""
  {
    var parts := Split(s, sep);
    var last := parts[|parts| - 1];
    JoinEndsWithLast(parts, sep);
    SuffixEndsAlike(s, last);
  }

  lemma SuffixEndsAlike(s: string, u: string)
    requires |u| <= |s| && s[|s| - |u|..] == u
    ensures u != [] ==> u[|u| - 1] == s[|s| - 1]
  {
    if u != [] {
      assert s[|s| - |u|..][|u| - 1] == s[|s| - 1];
    }
  }

  /** Python `head, tail = s.split(t, 1)`: the text before and after the first
      occurrence of `t`; `None` where Python raises ValueError (no occurrence,
      so the unpacking fails, or an empty separator). */
  function SplitFirst(s: string, t: string): (r: Option<(string, string)>)
    ensures r.None? <==> t == "" || forall i :: 0 <= i <= |s| ==> !OccursAt(s, t, i)
    ensures r.Some? ==> s == r.value.0 + t + r.value.1
    ensures r.Some? ==> OccursAt(s, t, |r.value.0|)
    ensures r.Some? ==> forall j :: 0 <= j < |r.value.0| ==> !OccursAt(s, t, j)
  {
    if t == "" then None
    else
      var i := Find(s, t);
      if i == -1 then None
      else
        assert s == s[..i] + s[i..i + |t|] + s[i + |t|..];
        Some((s[..i], s[i + |t|..]))
  }
}
