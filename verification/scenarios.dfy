/** Client-side scenarios: sequences of store operations whose outcomes follow from the
    operations' contracts alone. */
module Scenarios {
  import opened Outcomes
  import opened Models
  import opened Schemas
  import opened Urls
  import opened Links

  /** Creating an anonymous link under a free alias succeeds and its short URL ends in
      `/` and the alias; creating a second one under the same alias is refused and changes nothing. */
  method AliasTakenTwice(store: LinkStore, draws: seq<string>, now: Time, baseUrl: string)
    returns (first: Result<LinkInfo>, second: Result<LinkInfo>)
    requires store.Valid() && CodeGen.AllUuidHex(draws)
    requires "abc" !in store.links
    modifies store
    ensures store.Valid()
    ensures first.Ok? && first.value.shortUrl == ShortUrlFor(baseUrl, "abc")
    ensures second == Err(AliasInUse)
    ensures "abc" in store.links && store.links["abc"].userId.None? && store.links["abc"].clickCount == 0
  {
    var body := LinkCreate("https://example.com/a", Some("abc"), None);
    ValidAliasIff("abc");
    first := store.Create(body, None, now, draws, baseUrl);
    second := store.Create(body, None, now, draws, baseUrl);
  }

  /** Redirecting to a link that expired an hour ago answers `Expired`, not `NotFound`, and
      leaves its click count as it was. */
  method ExpiredRedirect(store: LinkStore, code: Code, now: Time) returns (r: Result<string>)
    requires store.Valid()
    requires code in store.links && store.links[code].expiresAt == Some(now - 3600)
    modifies store
    ensures r == Err(Expired)
    ensures code in store.links && store.links[code].clickCount == old(store.links[code].clickCount)
  {
    r := store.Redirect(code, now);
  }

  /** Two redirects of a live link count two clicks. */
  method TwoClicks(store: LinkStore, code: Code, now: Time) returns (a: Result<string>, b: Result<string>)
    requires store.Valid()
    requires code in store.links && !HasExpired(store.links[code], now)
    requires store.links[code].clickCount + 2 <= IntegerMax
    modifies store
    ensures a.Ok? && b.Ok? && a.value == b.value
    ensures code in store.links && store.links[code].clickCount == old(store.links[code].clickCount) + 2
    ensures store.links[code].lastUsedAt == Some(now)
  {
    a := store.Redirect(code, now);
    b := store.Redirect(code, now);
  }

  /** An owner who creates a link and then deletes it leaves the store as it was; neither an
      anonymous caller nor another user could have deleted it. */
  method CreateThenDelete(store: LinkStore, owner: UserId, stranger: UserId, alias: string, now: Time, baseUrl: string)
    returns (created: Result<LinkInfo>, anonymousDelete: Result<()>, strangerDelete: Result<()>, ownerDelete: Result<()>)
    requires store.Valid()
    requires stranger != owner
    requires ValidAlias(alias) && |alias| <= ShortUrlMaxLength && alias !in store.links
    modifies store
    ensures created.Ok?
    ensures anonymousDelete == Err(NotOwner) && strangerDelete == Err(NotOwner)
    ensures ownerDelete.Ok?
    ensures store.links == old(store.links)
  {
    created := store.Create(LinkCreate("https://example.com/b", Some(alias), None), Some(owner), now, [], baseUrl);
    anonymousDelete := store.Delete(alias, None);
    strangerDelete := store.Delete(alias, Some(stranger));
    ownerDelete := store.Delete(alias, Some(owner));
    assert store.links == old(store.links);
  }

  /** An owner's update with an empty body changes nothing, and an anonymous link cannot be
      updated, not even with an empty body. */
  method EmptyUpdate(store: LinkStore, code: Code, caller: Option<UserId>) returns (r: Result<LinkInfo>)
    requires store.Valid()
    requires code in store.links
    modifies store
    ensures store.links == old(store.links)
    ensures old(store.links[code]).userId.None? ==> r == Err(AnonymousLink)
    ensures old(store.links[code]).userId.Some? && caller == old(store.links[code]).userId ==>
      r == Ok(LinkInfo(code, old(store.links[code]).longUrl, old(store.links[code]).expiresAt))
  {
    r := store.Update(code, UpdateDefaults(), caller);
    if r.Ok? {
      assert store.links == (old(store.links) - {code})[code := old(store.links[code])];
    }
  }
}
