/** Classification of media files by file-name extension, the
    `/\.(…)$/i` tests shared by the uploader and the file list. */
module MediaKind {
  import opened Text

  /** The alternatives of the audio pattern `/\.(mp3|wav|ogg|m4a)$/i`. */
  const AudioExtensions: seq<string> := ["mp3", "wav", "ogg", "m4a"]

  /** The alternatives of the video pattern `/\.(mp4|avi|mov|wmv|flv)$/i`. */
  const VideoExtensions: seq<string> := ["mp4", "avi", "mov", "wmv", "flv"]

  /** Every extension either test accepts. */
  const MediaExtensions: seq<string> := AudioExtensions + VideoExtensions

  /** `name` matches `/\.(e1|e2|…)$/i` for the alternatives `exts`: some
      alternative, preceded by a dot, ends the name, ignoring ASCII case. */
  predicate HasExtension(name: string, exts: seq<string>)
    decreases |exts|
  {
    |exts| > 0 && (EndsWithIgnoringCase(name, "." + exts[0]) || HasExtension(name, exts[1..]))
  }

  /** The regular expression's reading of the alternation: the name
      matches exactly when one of the alternatives ends it. */
  lemma {:induction false} HasExtensionIff(name: string, exts: seq<string>)
    ensures HasExtension(name, exts) <==>
      exists i :: 0 <= i < |exts| && EndsWithIgnoringCase(name, "." + exts[i])
    decreases |exts|
  {
    if |exts| > 0 {
      HasExtensionIff(name, exts[1..]);
      if HasExtension(name, exts[1..]) {
        var i :| 0 <= i < |exts| - 1 && EndsWithIgnoringCase(name, "." + exts[1..][i]);
        assert EndsWithIgnoringCase(name, "." + exts[i + 1]);
      }
      if i :| 0 <= i < |exts| && EndsWithIgnoringCase(name, "." + exts[i]) {
        if i > 0 {
          assert exts[1..][i - 1] == exts[i];
        }
      }
    }
  }

  /** Matching the alternatives of `a` and then `b` is matching either
      pattern. */
  lemma {:induction false} HasExtensionConcat(name: string, a: seq<string>, b: seq<string>)
    ensures HasExtension(name, a + b) == (HasExtension(name, a) || HasExtension(name, b))
    decreases |a|
  {
    if |a| > 0 {
      HasExtensionConcat(name, a[1..], b);
      assert (a + b)[0] == a[0];
      assert (a + b)[1..] == a[1..] + b;
    } else {
      assert a + b == b;
    }
  }

  /** The test depends on the name only up to ASCII case. */
  lemma {:induction false} HasExtensionIgnoresCase(name: string, exts: seq<string>)
    ensures HasExtension(LowerAsciiString(name), exts) == HasExtension(name, exts)
    decreases |exts|
  {
    if |exts| > 0 {
      HasExtensionIgnoresCase(name, exts[1..]);
      var lower := LowerAsciiString(name);
      var suffix := "." + exts[0];
      if |suffix| <= |name| {
        forall k | 0 <= k < |suffix|
          ensures EqualIgnoringCase(lower[|lower| - |suffix| + k], suffix[k])
              == EqualIgnoringCase(name[|name| - |suffix| + k], suffix[k])
        {
          var c := name[|name| - |suffix| + k];
          assert LowerAscii(LowerAscii(c)) == LowerAscii(c);
        }
      }
    }
  }

  /** Two lower-case alternatives that are both matched at the end of the
      same name are the same alternative. */
  lemma SameEnding(name: string, a: string, b: string)
    requires |a| == |b| == 3
    requires forall k :: 0 <= k < 3 ==> LowerAscii(a[k]) == a[k] && LowerAscii(b[k]) == b[k]
    requires EndsWithIgnoringCase(name, "." + a) && EndsWithIgnoringCase(name, "." + b)
    ensures a == b
  {
    forall k | 0 <= k < 3 ensures a[k] == b[k] {
      assert ("." + a)[k + 1] == a[k] && ("." + b)[k + 1] == b[k];
    }
  }

  /** No file name carries both an audio and a video extension. */
  lemma AudioVideoExtensionsExclusive(name: string)
    ensures !(HasExtension(name, AudioExtensions) && HasExtension(name, VideoExtensions))
  {
    HasExtensionIff(name, AudioExtensions);
    HasExtensionIff(name, VideoExtensions);
    if HasExtension(name, AudioExtensions) && HasExtension(name, VideoExtensions) {
      var i :| 0 <= i < |AudioExtensions| && EndsWithIgnoringCase(name, "." + AudioExtensions[i]);
      var j :| 0 <= j < |VideoExtensions| && EndsWithIgnoringCase(name, "." + VideoExtensions[j]);
      SameEnding(name, AudioExtensions[i], VideoExtensions[j]);
      assert false;
    }
  }
}
