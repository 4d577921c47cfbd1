/** The `links` table: one record per short link, stored under its unique `short_url`. */
module Models {
  import opened Outcomes

  /** Timestamps are whole seconds; the source mixes timezone-aware and naive datetimes. */
  type Time = int

  /** The owning user's UUID primary key, opaque here. */
  type UserId = nat

  /** A short code: the value of the `short_url` column, which is the key of the store. */
  type Code = string

  /** `short_url` is declared `String(20)`; PostgreSQL refuses longer values. */
  const ShortUrlMaxLength := 20

  /** `click_count` is a PostgreSQL `Integer` (signed 32-bit). */
  const IntegerMax := 0x7FFF_FFFF

  /** One row of `links`. `userId` is the nullable foreign key to `users`; `None` marks an
      anonymous link. `expiresAt` and `lastUsedAt` are nullable. The `id` primary key and the
      `user` relationship are never read by the core and are not modelled. */
  datatype Link = Link(
    longUrl: string,
    shortUrl: Code,
    createdAt: Time,
    updatedAt: Time,
    expiresAt: Option<Time>,
    isActive: bool,
    clickCount: nat,
    lastUsedAt: Option<Time>,
    userId: Option<UserId>)

  /** The row a create inserts: both timestamps set to `now`, and the column defaults
      `is_active = true`, `click_count = 0`, `last_used_at = NULL`. */
  function NewLink(longUrl: string, code: Code, expiresAt: Option<Time>, owner: Option<UserId>, now: Time): (l: Link)
    ensures l.shortUrl == code && l.userId == owner && l.createdAt == now && l.updatedAt == now
    ensures l.clickCount == 0 && l.isActive && l.lastUsedAt.None?
    ensures |code| <= ShortUrlMaxLength <==> Storable(l)
  {
    Link(longUrl, code, now, now, expiresAt, true, 0, None, owner)
  }

  /** What the column types let PostgreSQL store. */
  predicate Storable(l: Link)
  {
    |l.shortUrl| <= ShortUrlMaxLength && l.clickCount <= IntegerMax
  }

  /** The table as a map: the unique index on `short_url` makes it a key, and every stored
      row satisfies the column types. */
  predicate KeyedByShortUrl(links: map<Code, Link>)
  {
    forall c | c in links :: links[c].shortUrl == c && Storable(links[c])
  }

  /** No two stored links share a `short_url`. */
  lemma ShortUrlUnique(links: map<Code, Link>, c1: Code, c2: Code)
    requires KeyedByShortUrl(links)
    requires c1 in links && c2 in links
    ensures links[c1].shortUrl == links[c2].shortUrl <==> c1 == c2
  {
  }

  /** Adding a storable row under a code not yet used keeps the table well keyed and grows it by one. */
  lemma InsertKeepsKeyed(links: map<Code, Link>, l: Link)
    requires KeyedByShortUrl(links)
    requires Storable(l) && l.shortUrl !in links
    ensures KeyedByShortUrl(links[l.shortUrl := l])
    ensures |links[l.shortUrl := l]| == |links| + 1
  {
  }
}
