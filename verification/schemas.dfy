/** The request bodies of create and update, and the constraints pydantic checks on them
    before a handler runs. URLs (`HttpUrl`) are opaque strings here. */
module Schemas {
  import opened Outcomes
  import opened Models

  /** `max_length=30` on `custom_alias`. */
  const AliasMaxLength := 30

  /** The character class `[a-zA-Z0-9_-]`. */
  predicate IsAliasChar(c: char)
  {
    'a' <= c <= 'z' || 'A' <= c <= 'Z' || '0' <= c <= '9' || c == '_' || c == '-'
  }

  /** The pattern `^[a-zA-Z0-9_-]+$`, matched one character at a time: one class character,
      then either the end or another match of the pattern. */
  predicate MatchesAliasPattern(s: string)
    decreases |s|
  {
    |s| > 0 && IsAliasChar(s[0]) && (|s| == 1 || MatchesAliasPattern(s[1..]))
  }

  /** Both `Field` constraints on `custom_alias`: the pattern and the maximum length. */
  predicate ValidAlias(s: string)
  {
    MatchesAliasPattern(s) && |s| <= AliasMaxLength
  }

  /** The pattern accepts exactly the non-empty strings over the alias class. */
  lemma {:induction false} PatternMeansCharset(s: string)
    ensures MatchesAliasPattern(s) <==> |s| > 0 && forall i | 0 <= i < |s| :: IsAliasChar(s[i])
    decreases |s|
  {
    if |s| > 1 {
      PatternMeansCharset(s[1..]);
      if forall i | 0 <= i < |s| :: IsAliasChar(s[i]) {
        assert forall i | 0 <= i < |s[1..]| :: IsAliasChar(s[1..][i]) by {
          forall i | 0 <= i < |s[1..]| ensures IsAliasChar(s[1..][i]) {
            assert s[1..][i] == s[i + 1];
          }
        }
      }
      if MatchesAliasPattern(s) {
        forall i | 0 <= i < |s| ensures IsAliasChar(s[i]) {
          if i > 0 { assert s[i] == s[1..][i - 1]; }
        }
      }
    }
  }

  /** An alias is accepted iff it is non-empty, at most 30 characters long and made of `[a-zA-Z0-9_-]`. */
  lemma ValidAliasIff(s: string)
    ensures ValidAlias(s) <==> 0 < |s| <= AliasMaxLength && forall i | 0 <= i < |s| :: IsAliasChar(s[i])
  {
    PatternMeansCharset(s);
  }

  /** The validator admits aliases that the `short_url` column (20 characters) cannot hold. */
  lemma AliasLongerThanColumn()
    ensures exists s :: ValidAlias(s) && |s| > ShortUrlMaxLength
  {
    var s := seq(21, i => 'a');
    PatternMeansCharset(s);
    assert ValidAlias(s);
  }

  /** `LinkCreate`: the long URL is required, alias and expiry are optional. */
  datatype LinkCreate = LinkCreate(longUrl: string, customAlias: Option<string>, expiresAt: Option<Time>)

  /** `LinkUpdate`: every field is optional. */
  datatype LinkUpdate = LinkUpdate(longUrl: Option<string>, customAlias: Option<string>, expiresAt: Option<Time>)

  /** `LinkInfo`, the view create, search and update answer with. */
  datatype LinkInfo = LinkInfo(shortUrl: string, originalUrl: string, expiresAt: Option<Time>)

  /** `LinkCreate` accepts a body iff its alias, when given, is valid. */
  predicate AcceptsCreate(p: LinkCreate)
  {
    p.customAlias.Some? ==> ValidAlias(p.customAlias.value)
  }

  /** `LinkUpdate` applies the identical alias rule. */
  predicate AcceptsUpdate(p: LinkUpdate)
  {
    p.customAlias.Some? ==> ValidAlias(p.customAlias.value)
  }

  /** A create body that names only the long URL: alias and expiry default to none, and it is accepted. */
  function CreateDefaults(longUrl: string): (p: LinkCreate)
    ensures p.longUrl == longUrl && p.customAlias.None? && p.expiresAt.None?
    ensures AcceptsCreate(p)
  {
    LinkCreate(longUrl, None, None)
  }

  /** The empty update body: every field defaults to none, and it is accepted. */
  function UpdateDefaults(): (p: LinkUpdate)
    ensures p.longUrl.None? && p.customAlias.None? && p.expiresAt.None?
    ensures AcceptsUpdate(p)
  {
    LinkUpdate(None, None, None)
  }

  /** The alias rule is the same for create and update. */
  lemma SameAliasRule(url: string, alias: string, expiresAt: Option<Time>)
    ensures AcceptsCreate(LinkCreate(url, Some(alias), expiresAt))
        <==> AcceptsUpdate(LinkUpdate(None, Some(alias), expiresAt))
  {
  }
}
