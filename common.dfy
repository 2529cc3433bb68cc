/**
 * String utilities of `utils/common.ts`: the image-proxy URL rule and the
 * random alphanumeric key generator.
 */
module Common {
  import opened Wrappers
  import opened Strings

  /**
   * The value of `EXPO_PUBLIC_IMG_HOST` as string concatenation sees it:
   * an unset variable is `undefined`, which concatenates as the text "undefined".
   */
  function HostText(host: Option<string>): string {
    match host
    case Some(h) => h
    case None => "undefined"
  }

  /**
   * `imgProxy(url)`: a missing or empty URL gives "", a URL that mentions
   * "http" is already absolute and is kept, anything else is a path on the
   * image host and gets the host prepended.
   */
  function ImgProxy(host: Option<string>, url: Option<string>): (r: string)
    ensures url.None? || url == Some("") ==> r == ""
    ensures url.Some? && Contains(url.value, "http") ==> r == url.value
    ensures url.Some? && url.value != "" && !Contains(url.value, "http") ==> r == HostText(host) + url.value
    ensures url.Some? ==> |r| >= |url.value| && r[|r| - |url.value|..] == url.value
  {
    match url
    case None => ""
    case Some(u) =>
      if u == "" then ""
      else if Contains(u, "http") then u
      else HostText(host) + u
  }

  /**
   * With a host that itself mentions "http", proxying twice is proxying once:
   * the prefixed URL now contains "http" and is kept as it is.
   */
  lemma ImgProxyIdempotent(host: string, url: Option<string>)
    requires Contains(host, "http")
    ensures ImgProxy(Some(host), Some(ImgProxy(Some(host), url))) == ImgProxy(Some(host), url)
  {
    match url
    case None =>
    case Some(u) =>
      if u != "" && !Contains(u, "http") {
        ContainsExtend("", host, u, "http");
        assert "" + host + u == host + u;
      }
  }

  /**
   * With the host variable unset, proxying a relative path twice is not
   * proxying it once: the first pass gives "undefined" + path, which still
   * lacks "http" and is prefixed again.
   */
  lemma ImgProxyUnsetHostNotIdempotent(u: string)
    requires u != ""
    requires forall i :: 0 <= i < |u| ==> u[i] != 'h'
    ensures ImgProxy(None, Some(ImgProxy(None, Some(u)))) != ImgProxy(None, Some(u))
  {
    ContainsNeedsFirstChar(u, "http");
    var once := ImgProxy(None, Some(u));
    assert once == "undefined" + u;
    ContainsNeedsFirstChar(once, "http");
    assert |ImgProxy(None, Some(once))| == |once| + 9;
  }

  /** A text without the first character of `sub` cannot contain `sub`. */
  lemma ContainsNeedsFirstChar(s: string, sub: string)
    requires sub != []
    requires forall i :: 0 <= i < |s| ==> s[i] != sub[0]
    ensures !Contains(s, sub)
  {
    forall i | 0 <= i <= |s| - |sub|
      ensures !OccursAt(s, sub, i)
    {
      assert s[i..i + |sub|][0] == s[i];
    }
  }

  /**
   * The 62 characters `generateRandomKey` draws from, in the order of the
   * source's literal: "A".."Z", then "a".."z", then "0".."9".
   */
  const Alphabet: string :=
    seq(26, i requires 0 <= i < 26 => ('A' as int + i) as char)
    + seq(26, i requires 0 <= i < 26 => ('a' as int + i) as char)
    + seq(10, i requires 0 <= i < 10 => ('0' as int + i) as char)


  predicate IsAlphanumeric(c: char) {
    'A' <= c <= 'Z' || 'a' <= c <= 'z' || '0' <= c <= '9'
  }

  lemma AlphabetIsAlphanumeric()
    ensures |Alphabet| == 62
    ensures forall i :: 0 <= i < |Alphabet| ==> IsAlphanumeric(Alphabet[i])
  {
  }

  /**
   * `generateRandomKey(length)`: appends one character per round, each picked
   * at an index `Math.floor(Math.random() * 62)`; the random draw is a choice
   * of any index in [0, 62). A negative length runs no round.
   */
  method GenerateRandomKey(length: int) returns (key: string)
    ensures |key| == if length < 0 then 0 else length
    ensures forall i :: 0 <= i < |key| ==> key[i] in Alphabet
  {
    key := "";
    var i := 0;
    while i < length
      invariant 0 <= i <= if length < 0 then 0 else length
      invariant |key| == i
      invariant forall j :: 0 <= j < |key| ==> key[j] in Alphabet
    {
      var pick :| 0 <= pick < |Alphabet|;
      key := key + [Alphabet[pick]];
      i := i + 1;
    }
  }

  /** `generateRandomIV()`: a 16-character key. */
  method GenerateRandomIV() returns (iv: string)
    ensures |iv| == 16
    ensures forall i :: 0 <= i < |iv| ==> IsAlphanumeric(iv[i])
  {
    iv := GenerateRandomKey(16);
    AlphabetIsAlphanumeric();
  }
}
