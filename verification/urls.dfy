/** String helpers the link handlers use: `str.rstrip("/")`, `str.lower()` and the
    `f"{base}/{code}"` short URL. */
module Urls {
  import opened Models

  /** `s.rstrip("/")`: drop every trailing slash. */
  function RStripSlashes(s: string): (r: string)
    ensures r <= s
    ensures r == [] || r[|r| - 1] != '/'
    ensures forall i | |r| <= i < |s| :: s[i] == '/'
    decreases |s|
  {
    if s != [] && s[|s| - 1] == '/' then RStripSlashes(s[..|s| - 1]) else s
  }

  /** Lowercasing of one character; ASCII letters only. */
  function LowerChar(c: char): char
  {
    if 'A' <= c <= 'Z' then (c as int + 32) as char else c
  }

  lemma LowerCharIdempotent(c: char)
    ensures LowerChar(LowerChar(c)) == LowerChar(c)
  {
  }

  /** `s.lower()`: no upper-case ASCII letter is left, and every other character is kept. */
  function Lower(s: string): (r: string)
    ensures |r| == |s|
    ensures forall i | 0 <= i < |r| :: !('A' <= r[i] <= 'Z')
    ensures forall i | 0 <= i < |s| :: !('A' <= s[i] <= 'Z') ==> r[i] == s[i]
  {
    seq(|s|, i requires 0 <= i < |s| => LowerChar(s[i]))
  }

  /** Lowercasing twice is lowercasing once. */
  lemma LowerIdempotent(s: string)
    ensures Lower(Lower(s)) == Lower(s)
  {
    forall i | 0 <= i < |s| ensures Lower(Lower(s))[i] == Lower(s)[i] {
      LowerCharIdempotent(s[i]);
    }
  }

  /** Stripping trailing slashes and lowercasing can be done in either order: lowercasing
      neither makes nor removes a slash. */
  lemma {:induction false} RStripLowerCommute(s: string)
    ensures RStripSlashes(Lower(s)) == Lower(RStripSlashes(s))
    decreases |s|
  {
    if s != [] {
      var n := |s| - 1;
      assert Lower(s)[n] == LowerChar(s[n]);
      if s[n] == '/' {
        assert Lower(s)[..n] == Lower(s[..n]);
        RStripLowerCommute(s[..n]);
      }
    }
  }

  /** `f"{base_url.rstrip('/')}/{code}"`. */
  function ShortUrlFor(baseUrl: string, code: Code): string
  {
    RStripSlashes(baseUrl) + "/" + code
  }

  /** A short URL is the base without trailing slashes, one slash, then the code. */
  lemma ShortUrlForShape(baseUrl: string, code: Code)
    ensures var r := ShortUrlFor(baseUrl, code);
      |r| == |RStripSlashes(baseUrl)| + 1 + |code| &&
      r[..|RStripSlashes(baseUrl)|] == RStripSlashes(baseUrl) &&
      r[|RStripSlashes(baseUrl)|] == '/' &&
      r[|RStripSlashes(baseUrl)| + 1..] == code
  {
  }

  /** Distinct codes give distinct short URLs under the same base. */
  lemma ShortUrlForInjective(baseUrl: string, c1: Code, c2: Code)
    requires ShortUrlFor(baseUrl, c1) == ShortUrlFor(baseUrl, c2)
    ensures c1 == c2
  {
    ShortUrlForShape(baseUrl, c1);
    ShortUrlForShape(baseUrl, c2);
  }
}
