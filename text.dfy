/** String operations the routes and components rely on: JavaScript's
    one-character `split`, `startsWith`, `trim`, and the ASCII case folding
    a case-insensitive regular expression applies to ASCII patterns. */
module Text {

  /** The segments of `s` between occurrences of `sep`, as JavaScript's
      `s.split(sep)` for a one-character separator: never empty, and
      exactly one segment (the whole string) when `sep` does not occur. */
  function Split(s: string, sep: char): (parts: seq<string>)
    ensures |parts| >= 1
    ensures forall i :: 0 <= i < |parts| ==> sep !in parts[i]
    ensures |parts| == 1 <==> sep !in s
    ensures sep !in s ==> parts[0] == s
    decreases |s|
  {
    if |s| == 0 then [""]
    else
      var rest := Split(s[1..], sep);
      if s[0] == sep then [""] + rest
      else [[s[0]] + rest[0]] + rest[1..]
  }

  /** The inverse of `Split`: the segments glued back with `sep`. */
  function Join(parts: seq<string>, sep: char): string
    requires |parts| >= 1
    decreases |parts|
  {
    if |parts| == 1 then parts[0] else parts[0] + [sep] + Join(parts[1..], sep)
  }

  /** Splitting loses nothing: joining the segments gives the string back. */
  lemma {:induction false} JoinSplit(s: string, sep: char)
    ensures Join(Split(s, sep), sep) == s
    decreases |s|
  {
    if |s| > 0 {
      var rest := Split(s[1..], sep);
      JoinSplit(s[1..], sep);
      if s[0] == sep {
        assert Split(s, sep) == [""] + rest;
        assert ([""] + rest)[1..] == rest;
        assert s == [sep] + s[1..];
      } else {
        var parts := Split(s, sep);
        assert parts == [[s[0]] + rest[0]] + rest[1..];
        if |rest| == 1 {
          assert s == [s[0]] + s[1..];
        } else {
          assert parts[1..] == rest[1..];
          assert Join(rest, sep) == rest[0] + [sep] + Join(rest[1..], sep);
          assert s == [s[0]] + s[1..];
        }
      }
    }
  }

  /** Splitting a string that starts with a segment free of `sep`. */
  lemma {:induction false} SplitPrefix(a: string, b: string, sep: char)
    requires sep !in a
    ensures Split(a + b, sep) == [a + Split(b, sep)[0]] + Split(b, sep)[1..]
    decreases |a|
  {
    var parts := Split(b, sep);
    if |a| == 0 {
      assert a + b == b;
      assert a + parts[0] == parts[0];
      assert parts == [parts[0]] + parts[1..];
    } else {
      SplitPrefix(a[1..], b, sep);
      assert (a + b)[1..] == a[1..] + b;
      var rest := Split(a[1..] + b, sep);
      assert rest == [a[1..] + parts[0]] + parts[1..];
      assert rest[0] == a[1..] + parts[0];
      assert rest[1..] == parts[1..];
      assert [a[0]] + (a[1..] + parts[0]) == a + parts[0];
    }
  }

  /** The other round trip: segments free of `sep` come back from
      splitting their join. */
  lemma {:induction false} SplitJoin(parts: seq<string>, sep: char)
    requires |parts| >= 1
    requires forall i :: 0 <= i < |parts| ==> sep !in parts[i]
    ensures Split(Join(parts, sep), sep) == parts
    decreases |parts|
  {
    if |parts| == 1 {
    } else {
      var tail := Join(parts[1..], sep);
      SplitJoin(parts[1..], sep);
      SplitPrefix(parts[0], [sep] + tail, sep);
      assert parts[0] + [sep] + tail == parts[0] + ([sep] + tail);
      assert ([sep] + tail)[1..] == tail;
      var right := Split([sep] + tail, sep);
      assert right == [""] + parts[1..];
      assert right[0] == "" && right[1..] == parts[1..];
      assert parts[0] + right[0] == parts[0];
      assert parts == [parts[0]] + parts[1..];
    }
  }

  /** The first segment is the text before the first `sep`: a prefix of
      `s` free of `sep` that is either all of `s` or followed by `sep`. */
  lemma {:induction false} FirstSegment(s: string, sep: char)
    ensures var p := Split(s, sep)[0];
      && |p| <= |s| && s[..|p|] == p && sep !in p
      && (|p| < |s| ==> s[|p|] == sep)
    decreases |s|
  {
    if |s| > 0 && s[0] != sep {
      FirstSegment(s[1..], sep);
    }
  }

  /** The last segment is the text after the last `sep`: a suffix of `s`
      free of `sep` that is either all of `s` or preceded by `sep`. */
  lemma {:induction false} LastSegment(s: string, sep: char)
    ensures var parts := Split(s, sep); var p := parts[|parts| - 1];
      && |p| <= |s| && s[|s| - |p|..] == p && sep !in p
      && (|p| < |s| ==> s[|s| - |p| - 1] == sep)
    decreases |s|
  {
    if |s| > 0 {
      var rest := Split(s[1..], sep);
      LastSegment(s[1..], sep);
      var parts := Split(s, sep);
      if s[0] == sep {
        assert parts[|parts| - 1] == rest[|rest| - 1];
      } else if |rest| == 1 {
        assert sep !in s[1..];
        assert s == [s[0]] + s[1..];
      } else {
        assert parts[|parts| - 1] == rest[|rest| - 1];
      }
    }
  }

  /** JavaScript's `s.startsWith(prefix)`. */
  predicate StartsWith(s: string, prefix: string) {
    |prefix| <= |s| && s[..|prefix|] == prefix
  }

  /** The ASCII lower-case of `c`; every other character is left alone. */
  function LowerAscii(c: char): (r: char)
    ensures 'A' <= c <= 'Z' ==> 'a' <= r <= 'z'
    ensures !('A' <= c <= 'Z') ==> r == c
  {
    if 'A' <= c <= 'Z' then (c as int - 'A' as int + 'a' as int) as char else c
  }

  /** The ASCII lower-case of a whole string. */
  function LowerAsciiString(s: string): (r: string)
    ensures |r| == |s| && forall k :: 0 <= k < |s| ==> r[k] == LowerAscii(s[k])
  {
    seq(|s|, k requires 0 <= k < |s| => LowerAscii(s[k]))
  }

  /** Characters equal up to ASCII case, which is how a pattern of ASCII
      letters under the `i` flag (without `u`) compares with the input. */
  predicate EqualIgnoringCase(c: char, d: char) {
    LowerAscii(c) == LowerAscii(d)
  }

  /** `s` ends with `suffix`, comparing each character up to ASCII case. */
  predicate EndsWithIgnoringCase(s: string, suffix: string) {
    && |suffix| <= |s|
    && forall k :: 0 <= k < |suffix| ==> EqualIgnoringCase(s[|s| - |suffix| + k], suffix[k])
  }

  /** The characters JavaScript's `trim` removes: the WhiteSpace and
      LineTerminator productions of ECMAScript (the Unicode space
      separators included). */
  predicate IsTrimmable(c: char) {
    || c == '\t' || c == '\n' || c == '\U{000B}' || c == '\U{000C}' || c == '\r' || c == ' '
    || c == '\U{00A0}' || c == '\U{1680}' || ('\U{2000}' <= c <= '\U{200A}')
    || c == '\U{2028}' || c == '\U{2029}' || c == '\U{202F}' || c == '\U{205F}'
    || c == '\U{3000}' || c == '\U{FEFF}'
  }

  function TrimStart(s: string): string
    decreases |s|
  {
    if |s| > 0 && IsTrimmable(s[0]) then TrimStart(s[1..]) else s
  }

  function TrimEnd(s: string): string
    decreases |s|
  {
    if |s| > 0 && IsTrimmable(s[|s| - 1]) then TrimEnd(s[..|s| - 1]) else s
  }

  /** `t` is `s[i..j]`, everything outside the slice is trimmable, and the
      slice neither starts nor ends with a trimmable character. */
  predicate IsTrimSlice(s: string, t: string, i: int, j: int) {
    && 0 <= i <= j <= |s| && t == s[i..j]
    && (forall k :: 0 <= k < i ==> IsTrimmable(s[k]))
    && (forall k :: j <= k < |s| ==> IsTrimmable(s[k]))
    && (|t| > 0 ==> !IsTrimmable(t[0]) && !IsTrimmable(t[|t| - 1]))
  }

  /** `t` is what is left of `s` once trimmable characters are cut from
      both ends; `TrimOfUnique` shows there is one such `t`. */
  predicate IsTrimOf(s: string, t: string) {
    exists i, j | 0 <= i <= j <= |s| :: IsTrimSlice(s, t, i, j)
  }

  /** JavaScript's `s.trim()`. */
  function Trim(s: string): (t: string)
    ensures IsTrimOf(s, t)
  {
    var a := TrimStart(s);
    TrimStartIsSuffix(s);
    TrimEndIsPrefix(a);
    var i := |s| - |a|;
    var t := TrimEnd(a);
    assert a == s[i..];
    assert t == s[i..i + |t|];
    assert IsTrimSlice(s, t, i, i + |t|);
    t
  }

  /** When `s` is not blank, a trimmed slice starts and ends on characters
      that are not trimmable. */
  lemma TrimSliceEnds(s: string, t: string, i: int, j: int, k: int)
    requires IsTrimSlice(s, t, i, j)
    requires 0 <= k < |s| && !IsTrimmable(s[k])
    ensures i <= k < j && !IsTrimmable(s[i]) && !IsTrimmable(s[j - 1])
  {
    assert t[0] == s[i] && t[|t| - 1] == s[j - 1];
  }

  /** The trimmed form of a string is unique: the slice starts at the first
      character that is not trimmable and ends after the last one. */
  lemma TrimOfUnique(s: string, t1: string, t2: string)
    requires IsTrimOf(s, t1) && IsTrimOf(s, t2)
    ensures t1 == t2
  {
    var i1, j1 :| 0 <= i1 <= j1 <= |s| && IsTrimSlice(s, t1, i1, j1);
    var i2, j2 :| 0 <= i2 <= j2 <= |s| && IsTrimSlice(s, t2, i2, j2);
    if k :| 0 <= k < |s| && !IsTrimmable(s[k]) {
      TrimSliceEnds(s, t1, i1, j1, k);
      TrimSliceEnds(s, t2, i2, j2, k);
      assert i1 == i2 && j1 == j2;
    }
  }

  lemma {:induction false} TrimStartIsSuffix(s: string)
    ensures var t := TrimStart(s);
      && |t| <= |s| && t == s[|s| - |t|..]
      && (forall k :: 0 <= k < |s| - |t| ==> IsTrimmable(s[k]))
      && (|t| > 0 ==> !IsTrimmable(t[0]))
    decreases |s|
  {
    if |s| > 0 && IsTrimmable(s[0]) {
      TrimStartIsSuffix(s[1..]);
    }
  }

  lemma {:induction false} TrimEndIsPrefix(s: string)
    ensures var t := TrimEnd(s);
      && |t| <= |s| && t == s[..|t|]
      && (forall k :: |t| <= k < |s| ==> IsTrimmable(s[k]))
      && (|t| > 0 ==> !IsTrimmable(t[|t| - 1]))
    decreases |s|
  {
    if |s| > 0 && IsTrimmable(s[|s| - 1]) {
      var s' := s[..|s| - 1];
      TrimEndIsPrefix(s');
      assert s'[..|TrimEnd(s')|] == s[..|TrimEnd(s')|];
    }
  }

  /** `Trim(s)` is the slice `s[i..j]` left after removing every
      trimmable character from both ends, and it neither starts nor ends
      with one. */
  lemma TrimIsSlice(s: string) returns (i: nat, j: nat)
    ensures i <= j <= |s| && Trim(s) == s[i..j]
    ensures forall k :: 0 <= k < i ==> IsTrimmable(s[k])
    ensures forall k :: j <= k < |s| ==> IsTrimmable(s[k])
    ensures |Trim(s)| > 0 ==> !IsTrimmable(Trim(s)[0]) && !IsTrimmable(Trim(s)[|Trim(s)| - 1])
  {
    var a := TrimStart(s);
    TrimStartIsSuffix(s);
    TrimEndIsPrefix(a);
    i := |s| - |a|;
    j := i + |Trim(s)|;
    assert a == s[i..];
    assert Trim(s) == s[i..j];
    if |Trim(s)| > 0 {
      assert Trim(s)[0] == a[0];
    }
  }

  /** Trimming never lengthens a string. */
  lemma TrimShorter(s: string)
    ensures |Trim(s)| <= |s|
  {
    TrimStartIsSuffix(s);
    TrimEndIsPrefix(TrimStart(s));
  }

  /** Trimming leaves nothing exactly when every character is trimmable. */
  lemma TrimEmptyIffBlank(s: string)
    ensures Trim(s) == "" <==> forall k :: 0 <= k < |s| ==> IsTrimmable(s[k])
  {
    var i, j := TrimIsSlice(s);
    assert |Trim(s)| > 0 ==> Trim(s)[0] == s[i];
  }

  /** Trimming twice is trimming once. */
  lemma TrimIdempotent(s: string)
    ensures Trim(Trim(s)) == Trim(s)
  {
    var t := Trim(s);
    var _, _ := TrimIsSlice(s);
    if |t| > 0 {
      assert TrimStart(t) == t;
      assert TrimEnd(t) == t;
    }
  }
}
