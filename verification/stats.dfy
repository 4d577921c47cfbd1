/** `get_link_stats`: a read-only lookup with an authorization rule.

    As written the rule compares `link.user_id` with `current_user` imported from
    `sqlalchemy.sql.functions`: a class, always truthy and never equal to a user id. So every
    link with an owner is refused, to its owner as much as to anyone. `GetLinkStats` models
    that; `GetLinkStatsIntended` is the owner-or-anonymous rule that delete and update apply. */
module Stats {
  import opened Outcomes
  import opened Models
  import Links

  /** The stats lookup as written. */
  function GetLinkStats(links: map<Code, Link>, shortUrl: Code): (r: Result<Link>)
    ensures shortUrl !in links ==> r == Err(NotFound)
    ensures r.Ok? <==> shortUrl in links && links[shortUrl].userId.None?
    ensures r.Ok? ==> r.value == links[shortUrl]
    ensures shortUrl in links && links[shortUrl].userId.Some? ==> r == Err(NotEnoughPermissions)
  {
    if shortUrl !in links then Err(NotFound)
    else if links[shortUrl].userId.Some? then Err(NotEnoughPermissions)
    else Ok(links[shortUrl])
  }

  /** The stats lookup with the caller threaded through: anonymous links are public, owned
      links are shown to their owner. */
  function GetLinkStatsIntended(links: map<Code, Link>, shortUrl: Code, caller: Option<UserId>): (r: Result<Link>)
    ensures shortUrl !in links ==> r == Err(NotFound)
    ensures r.Ok? <==> shortUrl in links && (links[shortUrl].userId.None? || Links.CheckOwner(links[shortUrl], caller).None?)
    ensures r.Ok? ==> r.value == links[shortUrl]
  {
    if shortUrl !in links then Err(NotFound)
    else if links[shortUrl].userId.Some? && caller != links[shortUrl].userId then Err(NotEnoughPermissions)
    else Ok(links[shortUrl])
  }

  /** As written, the owner of a link cannot see its statistics, while the intended rule lets them. */
  lemma OwnerLockedOut(links: map<Code, Link>, shortUrl: Code, owner: UserId)
    requires shortUrl in links && links[shortUrl].userId == Some(owner)
    ensures GetLinkStats(links, shortUrl) == Err(NotEnoughPermissions)
    ensures GetLinkStatsIntended(links, shortUrl, Some(owner)) == Ok(links[shortUrl])
  {
  }

  /** The two rules agree on absent codes and anonymous links, whoever asks. */
  lemma AgreeOnAnonymous(links: map<Code, Link>, shortUrl: Code, caller: Option<UserId>)
    requires shortUrl !in links || links[shortUrl].userId.None?
    ensures GetLinkStats(links, shortUrl) == GetLinkStatsIntended(links, shortUrl, caller)
  {
  }
}
