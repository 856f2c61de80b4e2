/** Display formatting helpers of the front end (src/lib/utils/format.ts). */
module Format {
  import opened Wrappers

  /** The characters `formatFileName` splits on: '/' and '\'. */
  predicate IsSeparator(c: char) {
    c == '/' || c == '\\'
  }

  predicate NoSeparator(s: string) {
    forall k :: 0 <= k < |s| ==> !IsSeparator(s[k])
  }

  /** The position of the last separator in `p`, if it has one. */
  function LastSeparator(p: string): (r: Option<nat>)
    ensures r.Some? ==> r.value < |p| && IsSeparator(p[r.value]) && NoSeparator(p[r.value + 1..])
    ensures r.None? ==> NoSeparator(p)
  {
    if p == [] then None
    else if IsSeparator(p[|p| - 1]) then Some(|p| - 1)
    else
      var r := LastSeparator(p[..|p| - 1]);
      assert r.Some? ==> p[r.value + 1..] == p[..|p| - 1][r.value + 1..] + [p[|p| - 1]];
      r
  }

  /** `formatFileName`: the last of the pieces that splitting on '/' and '\' gives, that
      is the text after the last separator, or the whole path when there is none. */
  function FormatFileName(p: string): string {
    match LastSeparator(p)
    case None => p
    case Some(k) => p[k + 1..]
  }

  /** The file name is a separator-free suffix of the path that starts right after a
      separator or at the start; so it is the whole path when there is no separator and
      empty when the path ends in one. */
  lemma FormatFileNameSpec(p: string)
    ensures var r := FormatFileName(p);
      && NoSeparator(r)
      && |r| <= |p| && p == p[..|p| - |r|] + r
      && (|r| < |p| ==> IsSeparator(p[|p| - |r| - 1]))
    ensures NoSeparator(p) ==> FormatFileName(p) == p
    ensures |p| > 0 && IsSeparator(p[|p| - 1]) ==> FormatFileName(p) == ""
  {
    match LastSeparator(p)
    case None =>
    case Some(k) =>
      assert p == p[..k + 1] + p[k + 1..];
  }

  /** Appending separator-free text does not move the last separator. */
  lemma {:induction false} LastSeparatorAppend(q: string, r: string)
    requires NoSeparator(r)
    requires q == [] || IsSeparator(q[|q| - 1])
    ensures LastSeparator(q + r) == if q == [] then None else Some(|q| - 1)
  {
    if r == [] {
      assert q + r == q;
    } else {
      var p := q + r;
      assert p[..|p| - 1] == q + r[..|r| - 1];
      assert p[|p| - 1] == r[|r| - 1];
      LastSeparatorAppend(q, r[..|r| - 1]);
    }
  }

  /** The separator-free suffix that starts after a separator or at the start is unique:
      it is what `FormatFileName` returns. */
  lemma FormatFileNameUnique(q: string, r: string)
    requires NoSeparator(r)
    requires q == [] || IsSeparator(q[|q| - 1])
    ensures FormatFileName(q + r) == r
  {
    LastSeparatorAppend(q, r);
    if q == [] {
      assert q + r == r;
    } else {
      assert (q + r)[|q|..] == r;
    }
  }

  /** A Windows path keeps its last component. */
  lemma FormatFileNameExample()
    ensures FormatFileName("C:\\AUDIO\\kick.wav") == "kick.wav"
    ensures FormatFileName("samples/loops/") == ""
  {
    assert "C:\\AUDIO\\kick.wav" == "C:\\AUDIO\\" + "kick.wav";
    FormatFileNameUnique("C:\\AUDIO\\", "kick.wav");
    assert "samples/loops/" == "samples/loops/" + "";
    FormatFileNameUnique("samples/loops/", "");
  }

  /** The zero case of `formatBytes`: "0 Bytes" exactly for a size of zero. Other sizes
      are formatted with floating-point logarithms and are not modelled (None). */
  function FormatBytesZero(bytes: real): (r: Option<string>)
    ensures r.Some? <==> bytes == 0.0
    ensures r.Some? ==> r.value == "0 Bytes"
  {
    if bytes == 0.0 then Some("0 Bytes") else None
  }
}
