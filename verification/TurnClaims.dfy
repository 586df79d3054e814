/** Who may persist a session's transcript: counted claims (persistOwners in go/runner.go). */
module TurnClaims {

  type Sid = string

  // A claim that has been granted and not released. A dispatching turn claims unconditionally, a stream only if
  // nobody holds the session.
  datatype Claim = Claim(sid: Sid, stream: bool)

  function Held(claims: map<nat, Claim>, sid: Sid): set<nat> {
    set id | id in claims && claims[id].sid == sid
  }

  lemma HeldGrows(claims: map<nat, Claim>, id: nat, c: Claim, sid: Sid)
    requires id !in claims
    ensures |Held(claims[id := c], sid)| == |Held(claims, sid)| + if sid == c.sid then 1 else 0
  {
    if sid == c.sid {
      assert Held(claims[id := c], sid) == Held(claims, sid) + {id};
    } else {
      assert Held(claims[id := c], sid) == Held(claims, sid);
    }
  }

  lemma HeldShrinks(claims: map<nat, Claim>, id: nat, sid: Sid)
    requires id in claims
    ensures |Held(claims - {id}, sid)| == |Held(claims, sid)| - if sid == claims[id].sid then 1 else 0
  {
    if sid == claims[id].sid {
      assert Held(claims - {id}, sid) == Held(claims, sid) - {id};
    } else {
      assert Held(claims - {id}, sid) == Held(claims, sid);
    }
  }

  class PersistOwners {
    var owners: map<Sid, nat>
    ghost var claims: map<nat, Claim>

    // The counter is the number of claims outstanding, with no entry at zero; and no session has two streams.
    ghost predicate Valid()
      reads this
    {
      && (forall sid :: |Held(claims, sid)| == if sid in owners then owners[sid] else 0)
      && (forall sid :: sid in owners ==> owners[sid] > 0)
      && (forall a, b ::
            a in claims && b in claims && claims[a].sid == claims[b].sid && claims[a].stream && claims[b].stream ==>
              a == b)
    }

    constructor ()
      ensures Valid() && owners == map[] && claims == map[]
    {
      owners, claims := map[], map[];
      new;
      assert forall sid :: Held(map[], sid) == {};
    }

    // ownTurnPersist
    method Own(sid: Sid, ghost id: nat)
      requires Valid() && id !in claims
      modifies this
      ensures Valid() && claims == old(claims)[id := Claim(sid, false)]
    {
      owners := owners[sid := (if sid in owners then owners[sid] else 0) + 1];
      claims := claims[id := Claim(sid, false)];
      forall x ensures |Held(claims, x)| == if x in owners then owners[x] else 0 {
        HeldGrows(old(claims), id, Claim(sid, false), x);
      }
    }

    // claimTurnPersist: granted exactly when no claim on the session is outstanding.
    method TryClaim(sid: Sid, ghost id: nat) returns (ok: bool)
      requires Valid() && id !in claims
      modifies this
      ensures Valid() && (ok <==> Held(old(claims), sid) == {})
      ensures claims == if ok then old(claims)[id := Claim(sid, true)] else old(claims)
    {
      if sid in owners && owners[sid] > 0 {
        return false;
      }
      assert Held(claims, sid) == {};
      assert forall a :: a in claims && claims[a].sid == sid ==> a in Held(claims, sid);
      owners := owners[sid := 1];
      claims := claims[id := Claim(sid, true)];
      forall x ensures |Held(claims, x)| == if x in owners then owners[x] else 0 {
        HeldGrows(old(claims), id, Claim(sid, true), x);
      }
      return true;
    }

    // releaseTurnPersist, called once for each claim.
    method Release(sid: Sid, ghost id: nat)
      requires Valid() && id in claims && claims[id].sid == sid
      modifies this
      ensures Valid() && claims == old(claims) - {id}
    {
      assert id in Held(claims, sid);
      var n := if sid in owners then owners[sid] else 0;
      if n <= 1 {
        owners := owners - {sid};
      } else {
        owners := owners[sid := n - 1];
      }
      claims := claims - {id};
      forall x ensures |Held(claims, x)| == if x in owners then owners[x] else 0 {
        HeldShrinks(old(claims), id, x);
      }
    }
  }
}
