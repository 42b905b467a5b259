/** The lease registry as objects: a lease per session created on first use, its holder changed under
    its own lock. */
module LeaseRegistry {
  class SessionLease {
    var holder: string

    constructor ()
      ensures holder == ""
    {
      holder := "";
    }

    predicate Holds(client: string)
      reads this
    {
      client != "" && holder == client
    }
  }

  datatype ControlOutcome = LeaseLost | Performed(answer: bool)

  /** Where operations take effect: for which session, by which client. */
  class Effects {
    var performed: seq<(string, string)>

    constructor ()
      ensures performed == []
    {
      performed := [];
    }
  }

  class LeaseRegistry {
    var leases: map<string, SessionLease>

    constructor ()
      ensures leases == map[]
    {
      leases := map[];
    }

    /** Each session has its own lease. */
    ghost predicate Valid()
      reads this
    {
      forall s, t :: s in leases && t in leases && s != t ==> leases[s] != leases[t]
    }

    function Holder(session: string): string
      reads this, leases.Values
    {
      if session in leases then leases[session].holder else ""
    }

    method Lease(session: string) returns (l: SessionLease)
      requires Valid()
      modifies this`leases
      ensures Valid() && session in leases && leases[session] == l
      ensures session in old(leases) ==> leases == old(leases)
      ensures session !in old(leases) ==> fresh(l) && l.holder == "" && leases == old(leases)[session := l]
    {
      if session in leases {
        return leases[session];
      }
      l := new SessionLease();
      leases := leases[session := l];
    }

    method Acquire(session: string, client: string) returns (tookOver: bool)
      requires Valid()
      modifies this`leases, leases.Values
      ensures Valid()
      ensures tookOver <==> client != "" && old(Holder(session)) != "" && old(Holder(session)) != client
      ensures Holder(session) == if client == "" then old(Holder(session)) else client
      ensures forall s :: s != session ==> Holder(s) == old(Holder(s))
    {
      if client == "" {
        return false;
      }
      var l := Lease(session);
      if l.holder == client {
        return false;
      }
      tookOver := l.holder != "";
      l.holder := client;
    }

    method Release(session: string, client: string)
      requires Valid()
      modifies this`leases, leases.Values
      ensures Valid()
      ensures Holder(session) == if client != "" && old(Holder(session)) == client then "" else old(Holder(session))
      ensures forall s :: s != session ==> Holder(s) == old(Holder(s))
    {
      if client == "" {
        return;
      }
      var l := Lease(session);
      if l.holder == client { l.holder := ""; }
    }

    /** The operation runs under the lock of the lease, so the holder it was admitted for is still the
        holder when it has taken effect. answer is what the operation returns. */
    method WithControl(session: string, client: string, answer: bool, effects: Effects) returns (out: ControlOutcome)
      requires Valid()
      modifies this`leases, effects
      ensures Valid() && forall s :: Holder(s) == old(Holder(s))
      ensures if client != "" && old(Holder(session)) == client
        then out == Performed(answer) && Holder(session) == client
             && effects.performed == old(effects.performed) + [(session, client)]
        else out == LeaseLost && effects.performed == old(effects.performed)
    {
      var l := Lease(session);
      if !l.Holds(client) {
        return LeaseLost;
      }
      effects.performed := effects.performed + [(session, client)];
      out := Performed(answer);
    }

    /** The loop over the snapshot; the leases are looked at in any order. */
    method ReleaseConnection(client: string)
      requires Valid()
      modifies leases.Values
      ensures Valid() && leases == old(leases)
      ensures forall s :: Holder(s) == if client != "" && old(Holder(s)) == client then "" else old(Holder(s))
    {
      if client == "" {
        return;
      }
      var left := leases.Keys;
      while left != {}
        invariant left <= leases.Keys
        invariant forall s :: s in leases ==>
          leases[s].holder == if s !in left && old(leases[s].holder) == client then "" else old(leases[s].holder)
        decreases left
      {
        var s :| s in left;
        left := left - {s};
        var l := leases[s];
        if l.holder == client { l.holder := ""; }
      }
    }
  }
}
