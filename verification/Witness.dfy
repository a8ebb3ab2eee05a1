/** How a device is paired: the statements every witness run begins with. */
module Witness {
  import opened Base
  import opened Schema
  import opened SchemaInvariant

  const REGISTER := DoRegister(1, 7, 0)
  const OFFER := DoCreateCode(5, 1, 9, 100, 0)
  const CLAIM := DoClaim(2, 9, 0)
  const OPEN := DoCreateSession(3, 2, 1, PerCommand)

  const REGISTERED := EMPTY.(devices := map[1 := Device(7, None, 0, None)])
  const OFFERED := REGISTERED.(codes := map[5 := Code(1, 9, 100, None)])
  const CLAIMED := Tables(map[1 := Device(7, Some(2), 0, Some(0))], map[5 := Code(1, 9, 100, Some(0))], map[], map[])

  function Opened(session: Session, calls: map<CallId, Call>): Tables {
    CLAIMED.(sessions := map[3 := session], calls := calls)
  }

  lemma Pairs()
    ensures Apply(EMPTY, REGISTER).tables == REGISTERED && Apply(REGISTERED, OFFER).tables == OFFERED
  {
  }

  lemma Claims()
    ensures Apply(OFFERED, CLAIM).tables == CLAIMED
  {
    assert HasDigest(OFFERED, 9, 5);
  }

  lemma Opens()
    ensures Apply(CLAIMED, OPEN).tables == Opened(Session(2, 1, PerCommand, Idle, None), map[])
  {
  }
}
