/** The link service: create, delete, redirect and update as methods of the store they change.
    Each handler runs in one database session; a raised error leaves the store as it was,
    because nothing is committed before the error (or the commit itself fails). The caller is
    the optional authenticated user id, the clock is the `now` argument.

    The source names its key column inconsistently: update filters on `short_code` and
    checks `custom_alias`, and the generator filters on `short_code`, none of which is a column
    of `Link`. The model uses `short_url`, the only such column, throughout. */
module Links {
  import opened Outcomes
  import opened Models
  import opened Schemas
  import opened Urls
  import CodeGen

  /** The two ownership checks that delete and update share: an anonymous link is refused to
      everyone, an owned link to everyone but its owner. */
  function CheckOwner(l: Link, caller: Option<UserId>): (r: Option<Error>)
    ensures r.None? <==> l.userId.Some? && caller == l.userId
    ensures l.userId.None? ==> r == Some(AnonymousLink)
    ensures l.userId.Some? && caller != l.userId ==> r == Some(NotOwner)
  {
    if l.userId.None? then Some(AnonymousLink)
    else if caller.None? || caller.value != l.userId.value then Some(NotOwner)
    else None
  }

  /** The code a create would store: a truthy custom alias if it is free, else a generated code
      taken from the draws with the default length. */
  function ChooseCode(links: map<Code, Link>, alias: Option<string>, draws: seq<string>): (r: Result<Code>)
    ensures r.Ok? ==> r.value !in links
    ensures alias.Some? && alias.value != [] ==>
      r == if alias.value in links then Err(AliasInUse) else Ok(alias.value)
    ensures (alias.None? || alias.value == []) ==>
      (r.Ok? <==> CodeGen.FirstFreeDraw(links, draws, CodeGen.DefaultLength) < |draws|)
    ensures (alias.None? || alias.value == []) && r.Ok? ==>
      r.value == CodeGen.Take(draws[CodeGen.FirstFreeDraw(links, draws, CodeGen.DefaultLength)], CodeGen.DefaultLength)
    ensures (alias.None? || alias.value == []) && r.Err? ==> r.error == NoFreeCode
    ensures (alias.None? || alias.value == []) && r.Ok? && CodeGen.AllUuidHex(draws) ==>
      |r.value| == CodeGen.DefaultLength && forall k | 0 <= k < |r.value| :: CodeGen.IsHexDigit(r.value[k])
  {
    if alias.Some? && alias.value != [] then
      if alias.value in links then Err(AliasInUse) else Ok(alias.value)
    else
      var i := CodeGen.FirstFreeDraw(links, draws, CodeGen.DefaultLength);
      if i < |draws| then
        var code := CodeGen.Take(draws[i], CodeGen.DefaultLength);
        assert code <= draws[i];
        Ok(code)
      else Err(NoFreeCode)
  }

  /** A redirect is refused when the link has an expiry strictly before `now`. */
  predicate HasExpired(l: Link, now: Time)
  {
    l.expiresAt.Some? && l.expiresAt.value < now
  }

  /** The row after an update's field assignments: each field is replaced only when the patch
      carries a (truthy) value, and the database stamps `updated_at` with its on-update value
      only if some value actually changed. */
  function Patched(l: Link, patch: LinkUpdate, stamp: Time): (p: Link)
    ensures p.createdAt == l.createdAt && p.isActive == l.isActive && p.clickCount == l.clickCount
    ensures p.lastUsedAt == l.lastUsedAt && p.userId == l.userId
    ensures patch.longUrl.None? ==> p.longUrl == l.longUrl
    ensures patch.longUrl.Some? ==> p.longUrl == patch.longUrl.value
    ensures patch.customAlias.None? ==> p.shortUrl == l.shortUrl
    ensures patch.customAlias.Some? && patch.customAlias.value != [] ==> p.shortUrl == patch.customAlias.value
    ensures patch.expiresAt.None? ==> p.expiresAt == l.expiresAt
    ensures patch.expiresAt.Some? ==> p.expiresAt == patch.expiresAt
    ensures l.expiresAt.Some? ==> p.expiresAt.Some?
    ensures p.updatedAt == l.updatedAt || p.updatedAt == stamp
    ensures p.updatedAt != l.updatedAt ==> p.(updatedAt := l.updatedAt) != l
    ensures p.(updatedAt := l.updatedAt) != l ==> p.updatedAt == stamp
    ensures patch == UpdateDefaults() ==> p == l
  {
    var u := if patch.longUrl.Some? then patch.longUrl.value else l.longUrl;
    var s := if patch.customAlias.Some? && patch.customAlias.value != [] then patch.customAlias.value else l.shortUrl;
    var e := if patch.expiresAt.Some? then patch.expiresAt else l.expiresAt;
    var q := l.(longUrl := u, shortUrl := s, expiresAt := e);
    if q != l then q.(updatedAt := stamp) else l
  }

  /** The `links` table behind one database. */
  class LinkStore {
    var links: map<Code, Link>

    /** The value the `updated_at` column's `onupdate=datetime.now()` writes on every UPDATE.
        The call is evaluated once, when the model module is imported, so every update of a
        row stamps the same moment. */
    const onUpdateStamp: Time

    ghost predicate Valid()
      reads this
    {
      KeyedByShortUrl(links)
    }

    constructor (importTime: Time)
      ensures Valid()
      ensures links == map[] && onUpdateStamp == importTime
    {
      links := map[];
      onUpdateStamp := importTime;
    }

    /** `create_short_link`. */
    method Create(payload: LinkCreate, caller: Option<UserId>, now: Time, draws: seq<string>, baseUrl: string)
      returns (r: Result<LinkInfo>)
      requires Valid()
      requires CodeGen.AllUuidHex(draws)
      modifies this
      ensures Valid()
      ensures r.Err? ==> links == old(links)
      ensures !AcceptsCreate(payload) ==> r == Err(Unprocessable)
      ensures AcceptsCreate(payload) ==>
        match ChooseCode(old(links), payload.customAlias, draws)
        case Err(e) => r == Err(e)
        case Ok(code) =>
          if |code| > ShortUrlMaxLength then r == Err(DataError)
          else
            && r == Ok(LinkInfo(ShortUrlFor(baseUrl, code), payload.longUrl, payload.expiresAt))
            && links == old(links)[code := NewLink(payload.longUrl, code, payload.expiresAt, caller, now)]
      ensures r.Ok? ==> |links| == |old(links)| + 1
      ensures r.Ok? ==> forall c | c in old(links) :: c in links && links[c] == old(links)[c]
    {
      if !AcceptsCreate(payload) {
        return Err(Unprocessable);
      }
      var code: Code;
      if payload.customAlias.Some? && payload.customAlias.value != [] {
        if payload.customAlias.value in links {
          return Err(AliasInUse);
        }
        code := payload.customAlias.value;
      } else {
        var generated := CodeGen.GenerateUniqueShortCode(links, draws, CodeGen.DefaultLength);
        if generated.None? {
          return Err(NoFreeCode);
        }
        code := generated.value;
      }
      // The commit fails on a value too long for `String(20)`.
      if |code| > ShortUrlMaxLength {
        return Err(DataError);
      }
      var l := NewLink(payload.longUrl, code, payload.expiresAt, caller, now);
      InsertKeepsKeyed(links, l);
      links := links[code := l];
      r := Ok(LinkInfo(ShortUrlFor(baseUrl, code), payload.longUrl, payload.expiresAt));
    }

    /** `delete_short_link`. */
    method Delete(shortUrl: Code, caller: Option<UserId>) returns (r: Result<()>)
      requires Valid()
      modifies this
      ensures Valid()
      ensures r.Err? ==> links == old(links)
      ensures shortUrl !in old(links) ==> r == Err(NotFound)
      ensures shortUrl in old(links) && CheckOwner(old(links)[shortUrl], caller).Some? ==>
        r == Err(CheckOwner(old(links)[shortUrl], caller).value)
      ensures r.Ok? <==> shortUrl in old(links) && old(links)[shortUrl].userId.Some? && caller == old(links)[shortUrl].userId
      ensures r.Ok? ==> links == old(links) - {shortUrl}
    {
      if shortUrl !in links {
        return Err(NotFound);
      }
      var denied := CheckOwner(links[shortUrl], caller);
      if denied.Some? {
        return Err(denied.value);
      }
      links := links - {shortUrl};
      r := Ok(());
    }

    /** `redirect_to_original`: count the click and answer with the long URL. */
    method Redirect(shortUrl: Code, now: Time) returns (r: Result<string>)
      requires Valid()
      modifies this
      ensures Valid()
      ensures r.Err? ==> links == old(links)
      ensures shortUrl !in old(links) ==> r == Err(NotFound)
      ensures shortUrl in old(links) && HasExpired(old(links)[shortUrl], now) ==> r == Err(Expired)
      ensures shortUrl in old(links) && !HasExpired(old(links)[shortUrl], now) && old(links)[shortUrl].clickCount == IntegerMax ==>
        r == Err(DataError)
      ensures r.Ok? <==> shortUrl in old(links) && !HasExpired(old(links)[shortUrl], now) && old(links)[shortUrl].clickCount < IntegerMax
      ensures r.Ok? ==>
        var l := old(links)[shortUrl];
        && r.value == l.longUrl
        && links == old(links)[shortUrl := l.(clickCount := l.clickCount + 1, lastUsedAt := Some(now), updatedAt := onUpdateStamp)]
    {
      if shortUrl !in links {
        return Err(NotFound);
      }
      var l := links[shortUrl];
      if HasExpired(l, now) {
        return Err(Expired);
      }
      // The commit fails when the counter would leave the `Integer` range.
      if l.clickCount == IntegerMax {
        return Err(DataError);
      }
      links := links[shortUrl := l.(clickCount := l.clickCount + 1, lastUsedAt := Some(now), updatedAt := onUpdateStamp)];
      r := Ok(l.longUrl);
    }

    /** `update_short_link`. The answer's `short_url` is the bare code, as the source builds it. */
    method Update(shortUrl: Code, payload: LinkUpdate, caller: Option<UserId>) returns (r: Result<LinkInfo>)
      requires Valid()
      modifies this
      ensures Valid()
      ensures r.Err? ==> links == old(links)
      ensures !AcceptsUpdate(payload) ==> r == Err(Unprocessable)
      ensures AcceptsUpdate(payload) && shortUrl !in old(links) ==> r == Err(NotFound)
      ensures AcceptsUpdate(payload) && shortUrl in old(links) && CheckOwner(old(links)[shortUrl], caller).Some? ==>
        r == Err(CheckOwner(old(links)[shortUrl], caller).value)
      ensures
        && AcceptsUpdate(payload) && shortUrl in old(links) && CheckOwner(old(links)[shortUrl], caller).None?
        && payload.customAlias.Some? && payload.customAlias.value != [] && payload.customAlias.value in old(links)
        ==> r == Err(AliasInUse)
      ensures r.Ok? ==> shortUrl in old(links) && CheckOwner(old(links)[shortUrl], caller).None?
      ensures r.Ok? ==>
        var p := Patched(old(links)[shortUrl], payload, onUpdateStamp);
        && links == (old(links) - {shortUrl})[p.shortUrl := p]
        && r.value == LinkInfo(p.shortUrl, p.longUrl, p.expiresAt)
      ensures
        && AcceptsUpdate(payload) && shortUrl in old(links) && CheckOwner(old(links)[shortUrl], caller).None?
        && !(payload.customAlias.Some? && payload.customAlias.value != [] && payload.customAlias.value in old(links))
        && |Patched(old(links)[shortUrl], payload, onUpdateStamp).shortUrl| <= ShortUrlMaxLength
        ==> r.Ok?
      ensures
        && AcceptsUpdate(payload) && shortUrl in old(links) && CheckOwner(old(links)[shortUrl], caller).None?
        && !(payload.customAlias.Some? && payload.customAlias.value != [] && payload.customAlias.value in old(links))
        && |Patched(old(links)[shortUrl], payload, onUpdateStamp).shortUrl| > ShortUrlMaxLength
        ==> r == Err(DataError)
    {
      if !AcceptsUpdate(payload) {
        return Err(Unprocessable);
      }
      if shortUrl !in links {
        return Err(NotFound);
      }
      var l := links[shortUrl];
      var denied := CheckOwner(l, caller);
      if denied.Some? {
        return Err(denied.value);
      }
      if payload.customAlias.Some? && payload.customAlias.value != [] && payload.customAlias.value in links {
        return Err(AliasInUse);
      }
      var p := Patched(l, payload, onUpdateStamp);
      // The commit fails on a value too long for `String(20)`.
      if |p.shortUrl| > ShortUrlMaxLength {
        return Err(DataError);
      }
      links := (links - {shortUrl})[p.shortUrl := p];
      r := Ok(LinkInfo(p.shortUrl, p.longUrl, p.expiresAt));
    }
  }
}
