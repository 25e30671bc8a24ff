/** The ledger of digests some worker of a push already owns (claimSet in internal/transfer/push.go). */
module ClaimLedger {
  import opened Base

  datatype Claim = Claim(done: bool, waiting: nat)

  type Claims = map<Digest, Claim>

  datatype Taken = Taken(claims: Claims, mustUpload: bool, credit: nat)

  datatype SettledClaim = SettledClaim(claims: Claims, placed: nat)

  function AfterTake(claims: Claims, d: Digest): Taken {
    if d !in claims then Taken(claims[d := Claim(false, 0)], true, 0)
    else if claims[d].done then Taken(claims, false, 1)
    else Taken(claims[d := claims[d].(waiting := claims[d].waiting + 1)], false, 0)
  }

  function AfterSettle(claims: Claims, d: Digest): SettledClaim {
    var waiting := if d in claims then claims[d].waiting else 0;
    SettledClaim(claims[d := Claim(true, 0)], 1 + waiting)
  }

  /** Each method holds the set's mutex from start to end. */
  class ClaimSet {
    var claims: Claims

    constructor ()
      ensures claims == map[]
    {
      claims := map[];
    }

    method Take(d: Digest) returns (mustUpload: bool, credit: nat)
      modifies this
      ensures Taken(claims, mustUpload, credit) == AfterTake(old(claims), d)
    {
      if d !in claims {
        claims := claims[d := Claim(false, 0)];
        return true, 0;
      }
      var held := claims[d];
      if held.done {
        return false, 1;
      }
      held := held.(waiting := held.waiting + 1);
      claims := claims[d := held];
      return false, 0;
    }

    method Settle(d: Digest) returns (placed: nat)
      modifies this
      ensures SettledClaim(claims, placed) == AfterSettle(old(claims), d)
    {
      var waiting := if d in claims then claims[d].waiting else 0;
      claims := claims[d := Claim(true, 0)];
      placed := 1 + waiting;
    }
  }
}
