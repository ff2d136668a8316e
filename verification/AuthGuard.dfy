/** When JwtGuard lets a presented token in. */
module AuthGuard {
  import opened Prelude
  import opened SessionKeys
  import opened SessionRecord
  import opened SessionStore
  import opened TokenIssue

  /** A presented token; `acceptable` says that it decodes, has an allowed type and passes validation. */
  datatype Jwt = Jwt(key: string, id: string, exp: int, acceptable: bool)

  function JwtId(jwt: Jwt): string {
    BoundId(jwt.key, jwt.id)
  }

  /** getSessionValue of the TOKEN service. */
  function ReadToken(st: Slots, id: string, now: int): Option<string> {
    var slot := Slot(TokenNs, id);
    if Live(st, slot, now) && st[slot].record.TokenRecord?
    then Some(BoundId(st[slot].record.key, st[slot].record.id)) else None
  }

  predicate Accepts(st: Slots, now: int, jwt: Jwt) {
    && now <= jwt.exp * 1000
    && jwt.acceptable
    && ReadToken(st, JwtId(jwt), now).Some?
    && ReadSession(st, Slot(SessionNs, JwtId(jwt)), now).Ok?
  }
}
