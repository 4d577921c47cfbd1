/** The short-code generator: truncate a random UUID's hex form and re-roll until the code is
    free. The randomness is an input: `draws` lists the `uuid4().hex` values in the order they
    would be drawn. */
module CodeGen {
  import opened Outcomes
  import opened Models

  /** `uuid4().hex` is 32 characters long. */
  const UuidHexLength := 32

  /** The default `length` argument. */
  const DefaultLength := 6

  predicate IsHexDigit(c: char)
  {
    '0' <= c <= '9' || 'a' <= c <= 'f'
  }

  /** What `uuid4().hex` yields: 32 lowercase hexadecimal digits. */
  predicate IsUuidHex(s: string)
  {
    |s| == UuidHexLength && forall i | 0 <= i < |s| :: IsHexDigit(s[i])
  }

  predicate AllUuidHex(draws: seq<string>)
  {
    forall k | 0 <= k < |draws| :: IsUuidHex(draws[k])
  }

  /** The length of Python's `s[:n]` when `|s| == len`: negative `n` counts from the end. */
  function SliceLength(len: nat, n: int): nat
  {
    if n >= 0 then (if n < len then n else len)
    else if len + n > 0 then len + n else 0
  }

  /** Python's `s[:n]`: the whole string when `n` reaches past its end, the first `n`
      characters for a non-negative `n`, and all but the last `-n` characters (or nothing)
      for a negative `n`. */
  function Take(s: string, n: int): (r: string)
    ensures r <= s
    ensures n >= |s| ==> r == s
    ensures 0 <= n <= |s| ==> r == s[..n]
    ensures n < 0 ==> r + s[|r|..] == s && |s| - |r| == (if -n < |s| then -n else |s|)
  {
    s[..SliceLength(|s|, n)]
  }

  /** Index of the first draw whose truncation is not a stored code, or `|draws|` if there is none. */
  function FirstFreeDraw(links: map<Code, Link>, draws: seq<string>, length: int): (i: nat)
    ensures i <= |draws|
    ensures forall j | 0 <= j < i :: Take(draws[j], length) in links
    ensures i < |draws| ==> Take(draws[i], length) !in links
    decreases |draws|
  {
    if draws == [] then 0
    else if Take(draws[0], length) !in links then 0
    else 1 + FirstFreeDraw(links, draws[1..], length)
  }

  /** `generate_unique_short_code`: try each draw in turn, query the store, and return the
      first truncation that is not in use. The store is only read. Create calls it with the
      default `length`, `DefaultLength`. */
  method GenerateUniqueShortCode(links: map<Code, Link>, draws: seq<string>, length: int)
    returns (code: Option<Code>)
    ensures code.Some? <==> FirstFreeDraw(links, draws, length) < |draws|
    ensures code.Some? ==> code.value == Take(draws[FirstFreeDraw(links, draws, length)], length)
    ensures code.Some? ==> code.value !in links
    ensures code.Some? && AllUuidHex(draws) ==>
      |code.value| == SliceLength(UuidHexLength, length) &&
      forall k | 0 <= k < |code.value| :: IsHexDigit(code.value[k])
  {
    var i := 0;
    while i < |draws|
      invariant 0 <= i <= |draws|
      invariant forall j | 0 <= j < i :: Take(draws[j], length) in links
    {
      var candidate := Take(draws[i], length);
      if candidate !in links {
        assert candidate <= draws[i];
        return Some(candidate);
      }
      i := i + 1;
    }
    code := None;
  }

  /** With the default length, a generated code is six lowercase hex digits. */
  lemma DefaultCodeShape(d: string)
    requires IsUuidHex(d)
    ensures |Take(d, DefaultLength)| == 6
    ensures forall k | 0 <= k < 6 :: IsHexDigit(Take(d, DefaultLength)[k])
  {
  }
}
