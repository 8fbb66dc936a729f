/**
  URL construction of the API client: the base URL is normalised once at
  construction (`base_url.rstrip('/')`) and every request URL is
  `BASE_URL + '/' + path.lstrip('/')`.
 */
module Url {

  const Slash: char := '/'

  /** `n` copies of the separator. */
  function Slashes(n: nat): (r: string)
    ensures |r| == n
    ensures forall i :: 0 <= i < n ==> r[i] == Slash
  {
    if n == 0 then "" else Slashes(n - 1) + [Slash]
  }

  predicate EndsWithSlash(s: string) {
    |s| > 0 && s[|s| - 1] == Slash
  }

  predicate StartsWithSlash(s: string) {
    |s| > 0 && s[0] == Slash
  }

  /** Python's `s.rstrip('/')`: `s` is the result followed only by slashes. */
  function RStripSlashes(s: string): (r: string)
    ensures |r| <= |s| && s == r + Slashes(|s| - |r|)
    ensures !EndsWithSlash(r)
    decreases |s|
  {
    if EndsWithSlash(s) then
      var r := RStripSlashes(s[..|s| - 1]);
      assert s == s[..|s| - 1] + [s[|s| - 1]];
      r
    else
      s
  }

  /** Python's `s.lstrip('/')`: `s` is only slashes followed by the result. */
  function LStripSlashes(s: string): (r: string)
    ensures |r| <= |s| && s == Slashes(|s| - |r|) + r
    ensures !StartsWithSlash(r)
    decreases |s|
  {
    if StartsWithSlash(s) then
      var r := LStripSlashes(s[1..]);
      SlashesCons(|s| - 1 - |r|);
      assert s == [s[0]] + s[1..];
      r
    else
      s
  }

  lemma {:induction false} SlashesCons(n: nat)
    ensures Slashes(n + 1) == [Slash] + Slashes(n)
  {
  }

  lemma {:induction false} SlashesAppend(m: nat, n: nat)
    ensures Slashes(m) + Slashes(n) == Slashes(m + n)
    decreases n
  {
    if n > 0 {
      SlashesAppend(m, n - 1);
      assert Slashes(m) + Slashes(n) == (Slashes(m) + Slashes(n - 1)) + [Slash];
    }
  }

  /** The `BASE_URL` the client stores for a caller's `base_url`. */
  function NormalizeBase(baseUrl: string): (r: string)
    ensures !EndsWithSlash(r)
    ensures |r| <= |baseUrl| && baseUrl == r + Slashes(|baseUrl| - |r|)
  {
    RStripSlashes(baseUrl)
  }

  /**
    The URL `request` hands to the transport for `path`: the base, one
    slash, and a tail that does not start with a slash and is `path` less
    its leading slashes.
   */
  function JoinUrl(base: string, path: string): (url: string)
    ensures |base| < |url| && url[..|base|] == base && url[|base|] == Slash
    ensures var rest := url[|base| + 1..];
            && !StartsWithSlash(rest)
            && |rest| <= |path| && path == Slashes(|path| - |rest|) + rest
  {
    base + [Slash] + LStripSlashes(path)
  }

  /**
    `rstrip('/')` is characterised independently of how it is computed:
    it is the unique prefix not ending in a slash that leaves only slashes
    behind.
   */
  lemma {:induction false} RStripUnique(s: string, r: string, n: nat)
    requires s == r + Slashes(n)
    requires !EndsWithSlash(r)
    ensures RStripSlashes(s) == r
    decreases n
  {
    if n == 0 {
      assert s == r;
    } else {
      assert EndsWithSlash(s);
      assert s[..|s| - 1] == r + Slashes(n - 1);
      RStripUnique(s[..|s| - 1], r, n - 1);
    }
  }

  /** The mirror characterisation of `lstrip('/')`. */
  lemma {:induction false} LStripUnique(s: string, r: string, n: nat)
    requires s == Slashes(n) + r
    requires !StartsWithSlash(r)
    ensures LStripSlashes(s) == r
    decreases n
  {
    if n == 0 {
      assert s == r;
    } else {
      assert StartsWithSlash(s);
      SlashesCons(n - 1);
      assert s[1..] == Slashes(n - 1) + r;
      LStripUnique(s[1..], r, n - 1);
    }
  }

  /** Normalising an already normalised base URL changes nothing. */
  lemma NormalizeIdempotent(baseUrl: string)
    ensures NormalizeBase(NormalizeBase(baseUrl)) == NormalizeBase(baseUrl)
  {
    var r := NormalizeBase(baseUrl);
    RStripUnique(r, r, 0);
  }

  /** Extra trailing slashes on `base_url` do not change `BASE_URL`. */
  lemma TrailingSlashesIgnored(baseUrl: string, n: nat)
    ensures NormalizeBase(baseUrl + Slashes(n)) == NormalizeBase(baseUrl)
  {
    var r := NormalizeBase(baseUrl);
    var k := |baseUrl| - |r|;
    SlashesAppend(k, n);
    assert baseUrl + Slashes(n) == r + Slashes(k + n);
    RStripUnique(baseUrl + Slashes(n), r, k + n);
  }

  /** Extra leading slashes on `path` do not change what is appended. */
  lemma {:induction false} LeadingSlashesIgnored(path: string, n: nat)
    ensures LStripSlashes(Slashes(n) + path) == LStripSlashes(path)
    decreases n
  {
    if n == 0 {
      assert Slashes(n) + path == path;
    } else {
      var s := Slashes(n) + path;
      SlashesCons(n - 1);
      assert s[1..] == Slashes(n - 1) + path;
      LeadingSlashesIgnored(path, n - 1);
    }
  }

  /**
    The junction: the request URL is the normalised base, exactly one slash,
    then the path without its leading slashes; neither the character before
    the joining slash nor the one after it is a slash.
   */
  lemma JoinJunction(baseUrl: string, path: string)
    ensures var base := NormalizeBase(baseUrl);
            var url := JoinUrl(base, path);
            && url == base + "/" + LStripSlashes(path)
            && url[|base|] == Slash
            && (|base| > 0 ==> url[|base| - 1] != Slash)
            && (|url| > |base| + 1 ==> url[|base| + 1] != Slash)
  {
  }

  /**
    Whatever slashes the caller puts at the end of `base_url` and at the
    start of `path`, the request URL is the same.
   */
  lemma CallerSlashesIgnored(baseUrl: string, path: string, m: nat, n: nat)
    ensures JoinUrl(NormalizeBase(baseUrl + Slashes(m)), Slashes(n) + path)
         == JoinUrl(NormalizeBase(baseUrl), path)
  {
    TrailingSlashesIgnored(baseUrl, m);
    LeadingSlashesIgnored(path, n);
  }

  /** Two instances of the joining rule: slashes on both sides, and on neither. */
  lemma JoinExamples()
    ensures JoinUrl(NormalizeBase("http://x/"), "/y") == "http://x/y"
    ensures JoinUrl(NormalizeBase("http://x"), "y") == "http://x/y"
  {
    RStripUnique("http://x/", "http://x", 1);
    RStripUnique("http://x", "http://x", 0);
    LStripUnique("/y", "y", 1);
    LStripUnique("y", "y", 0);
  }
}
