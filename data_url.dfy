/** Data URLs of base64-encoded images: the `data:image/png;base64,`
    prefix the application puts in front of every image it receives, and
    the prefix stripper that takes it off again before an image is sent
    back to the backend. */
module DataUrl {

  const ImageScheme: string := "data:image/"
  const Base64Marker: string := ";base64,"

  /** A character matched by the regular-expression class `\w`. */
  predicate IsWordChar(c: char) {
    ('a' <= c <= 'z') || ('A' <= c <= 'Z') || ('0' <= c <= '9') || c == '_'
  }

  /** A string matched by `\w+`. */
  predicate IsWord(s: string) {
    |s| > 0 && forall i :: 0 <= i < |s| ==> IsWordChar(s[i])
  }

  /** The prefix `data:image/<mime>;base64,`. */
  function DataUrlPrefix(mime: string): string {
    ImageScheme + mime + Base64Marker
  }

  /** The data URL of a base64 PNG payload, as built after every call that
      returns an image. */
  function PngDataUrl(base64: string): string {
    DataUrlPrefix("png") + base64
  }

  /** Length of the longest run of word characters at the start of `s`:
      the only length `\w+` can match there, because the character after
      it is not a word character. */
  function WordRun(s: string): (n: nat)
    ensures n <= |s|
    ensures forall i :: 0 <= i < n ==> IsWordChar(s[i])
    ensures n < |s| ==> !IsWordChar(s[n])
  {
    if s == [] || !IsWordChar(s[0]) then 0 else 1 + WordRun(s[1..])
  }

  /** `source.replace(/^data:image\/\w+;base64,/, "")`: removes a leading
      image data-URL prefix, and returns every other string unchanged. */
  function StripBase64Prefix(source: string): (r: string)
    ensures |r| <= |source| && r == source[|source| - |r|..]
    ensures r == source || exists mime :: IsWord(mime) && source == DataUrlPrefix(mime) + r
  {
    if |ImageScheme| <= |source| && source[..|ImageScheme|] == ImageScheme then
      var rest := source[|ImageScheme|..];
      var n := WordRun(rest);
      if 0 < n && n + |Base64Marker| <= |rest| && rest[n..n + |Base64Marker|] == Base64Marker then
        var r := rest[n + |Base64Marker|..];
        assert IsWord(rest[..n]);
        assert source == DataUrlPrefix(rest[..n]) + r;
        r
      else
        source
    else
      source
  }

  /** A word followed by a non-word character is exactly what `WordRun`
      measures. */
  lemma WordRunOfWord(mime: string, tail: string)
    requires IsWord(mime)
    requires tail != [] && !IsWordChar(tail[0])
    ensures WordRun(mime + tail) == |mime|
  {
    var s := mime + tail;
    assert forall i :: 0 <= i < |mime| ==> s[i] == mime[i];
    assert s[|mime|] == tail[0];
  }

  /** Every image data-URL prefix is removed exactly, whatever follows it. */
  lemma {:induction false} StripDataUrl(mime: string, payload: string)
    requires IsWord(mime)
    ensures StripBase64Prefix(DataUrlPrefix(mime) + payload) == payload
  {
    var source := DataUrlPrefix(mime) + payload;
    var rest := mime + Base64Marker + payload;
    assert source[..|ImageScheme|] == ImageScheme;
    assert source[|ImageScheme|..] == rest;
    WordRunOfWord(mime, Base64Marker + payload);
    assert rest[|mime|..|mime| + |Base64Marker|] == Base64Marker;
    assert rest[|mime| + |Base64Marker|..] == payload;
  }

  /** Round trip: stripping the prefix put on a received PNG gives back the
      base64 payload the backend sent. */
  lemma PngRoundTrip(payload: string)
    ensures StripBase64Prefix(PngDataUrl(payload)) == payload
  {
    assert IsWord("png");
    StripDataUrl("png", payload);
  }

  /** A string with no image data-URL prefix passes through unchanged. */
  lemma StripWithoutPrefix(source: string)
    requires forall mime :: IsWord(mime) ==> !StartsWith(source, DataUrlPrefix(mime))
    ensures StripBase64Prefix(source) == source
  {
  }

  predicate StartsWith(s: string, prefix: string) {
    |prefix| <= |s| && s[..|prefix|] == prefix
  }
}
