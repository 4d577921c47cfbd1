/** Values standing for the source's nullable columns and for the HTTP errors its handlers raise. */
module Outcomes {

  /** A nullable value (`Optional[...]` in the schemas, `nullable=True` in the table). */
  datatype Option<+T> = None | Some(value: T)

  /** Every way a link operation can fail; each names the `HTTPException` it stands for. */
  datatype Error =
    | Unprocessable         // the request body fails the pydantic schema (422)
    | AliasInUse            // "Alias already in use" (400)
    | NotFound              // "Short link not found", "No links found ...", "Link not found" (404)
    | AnonymousLink         // "Anonymous links cannot be deleted/updated" (403)
    | NotOwner              // "You are not the owner of this link" (403)
    | NotEnoughPermissions  // the stats endpoint's "Not enough permissions" (403)
    | Expired               // "Link has expired" (410)
    | DataError             // the database refuses the row at commit; the transaction is rolled back (500)
    | NoFreeCode            // every supplied random draw collided with a stored code

  datatype Result<+T> = Ok(value: T) | Err(error: Error)
}
