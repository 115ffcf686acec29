/** Removal of the data-URI header from an inline image payload before it is
    base64-decoded: `payload.replace(/^data:image\/\w+;base64,/, '')`. */
module DataUri {
  import opened Common

  const Scheme: string := "data:image/"
  const Marker: string := ";base64,"

  /** `\w`: an ASCII letter, digit or underscore. */
  predicate IsWordChar(c: char)
  {
    ('a' <= c <= 'z') || ('A' <= c <= 'Z') || ('0' <= c <= '9') || c == '_'
  }

  /** A string `\w+` matches entirely. */
  predicate IsWord(w: string)
  {
    |w| > 0 && forall i :: 0 <= i < |w| ==> IsWordChar(w[i])
  }

  /** Length of the longest run of word characters at the start of `s`. */
  function WordRun(s: string): (n: nat)
    ensures n <= |s|
    ensures forall i :: 0 <= i < n ==> IsWordChar(s[i])
    ensures n < |s| ==> !IsWordChar(s[n])
    decreases |s|
  {
    if |s| > 0 && IsWordChar(s[0]) then 1 + WordRun(s[1..]) else 0
  }

  /** Length of the text the anchored pattern matches at the start of `s`, or
      0 when it does not match. `\w+` cannot take the `;` that must follow it,
      so the only candidate is the longest word run. */
  function HeaderLength(s: string): (n: nat)
    ensures n <= |s|
  {
    if IsPrefix(Scheme, s) then
      var m := |Scheme| + WordRun(s[|Scheme|..]);
      if m > |Scheme| && IsPrefix(Marker, s[m..]) then m + |Marker| else 0
    else 0
  }

  /** The payload with its data-URI header removed, if it has one. The result
      is always a tail of the payload, and whatever was removed is exactly one
      well-formed header. */
  function StripHeader(s: string): (r: string)
    ensures IsSuffix(r, s)
    ensures r != s ==> exists w :: IsWord(w) && s == Scheme + w + Marker + r
  {
    var n := HeaderLength(s);
    var r := s[n..];
    if n > 0 then
      var m := |Scheme| + WordRun(s[|Scheme|..]);
      var w := s[|Scheme|..m];
      assert forall i :: 0 <= i < |w| ==> w[i] == s[|Scheme|..][i];
      assert IsWord(w);
      assert s == Scheme + w + Marker + r by {
        assert s == s[..|Scheme|] + s[|Scheme|..m] + s[m..m + |Marker|] + s[m + |Marker|..];
      }
      r
    else
      r
  }

  /** The word run of `w + Marker + t` is `w` itself: the `;` stops it. */
  lemma WordRunStopsAtMarker(w: string, t: string)
    requires IsWord(w)
    ensures WordRun(w + Marker + t) == |w|
  {
    var s := w + Marker + t;
    assert forall i :: 0 <= i < |w| ==> s[i] == w[i];
    assert s[|w|] == ';';
  }

  /** A payload carrying a header loses exactly that header, and nothing of
      the base64 text after it. */
  lemma StripsOneHeader(w: string, t: string)
    requires IsWord(w)
    ensures StripHeader(Scheme + w + Marker + t) == t
  {
    var s := Scheme + w + Marker + t;
    assert s[|Scheme|..] == w + Marker + t;
    WordRunStopsAtMarker(w, t);
    assert s[..|Scheme|] == Scheme;
    var m := |Scheme| + |w|;
    assert s[m..] == Marker + t;
    assert s[m..][..|Marker|] == Marker;
    assert HeaderLength(s) == m + |Marker|;
    assert s[m + |Marker|..] == t;
  }

  /** Text without a `:` (every base64 string) has no header and is left as is. */
  lemma PlainPayloadUnchanged(t: string)
    requires forall i :: 0 <= i < |t| ==> t[i] != ':'
    ensures StripHeader(t) == t
  {
    if |Scheme| <= |t| {
      assert t[..|Scheme|][4] == t[4];
    }
  }

  /** An image payload with a `data:image/png;base64,` header and the same
      payload without it are decoded from the same text. */
  lemma HeaderedAndPlainAgree(t: string)
    requires forall i :: 0 <= i < |t| ==> t[i] != ':'
    ensures StripHeader(Scheme + "png" + Marker + t) == StripHeader(t)
  {
    StripsOneHeader("png", t);
    PlainPayloadUnchanged(t);
  }
}
