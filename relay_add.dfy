/**
  The "Register Key" modal of the relay settings: the payload it saves is
  the organization's trusted relays with the relay being entered appended.
  `R` stands for a relay record (its public key, name and description); the
  modal only places records in order and does not look inside them.
 */
module OrganizationRelay {

  /** The body sent on save: an object with the single field `trustedRelays`. */
  datatype RegisterData<R> = RegisterData(trustedRelays: seq<R>)

  /** `{trustedRelays: [...savedRelays, values]}`. */
  function GetData<R>(savedRelays: seq<R>, values: R): (data: RegisterData<R>)
    ensures |data.trustedRelays| == |savedRelays| + 1
    ensures data.trustedRelays[..|savedRelays|] == savedRelays
    ensures data.trustedRelays[|savedRelays|] == values
  {
    RegisterData(savedRelays + [values])
  }

  /** The trusted relays are the saved ones and the new one, counted with multiplicity. */
  lemma RegisteredRelays<R>(savedRelays: seq<R>, values: R)
    ensures multiset(GetData(savedRelays, values).trustedRelays) == multiset(savedRelays) + multiset{values}
    ensures forall x :: x in GetData(savedRelays, values).trustedRelays <==> x in savedRelays || x == values
  {
    var trusted := GetData(savedRelays, values).trustedRelays;
    assert trusted == savedRelays + [values];
  }

  /** `GetData` applied to its own payload and a second relay appends both, in the order given. */
  lemma {:induction false} RegisterTwice<R>(savedRelays: seq<R>, first: R, second: R)
    ensures GetData(GetData(savedRelays, first).trustedRelays, second).trustedRelays == savedRelays + [first, second]
  {
    var once := GetData(savedRelays, first).trustedRelays;
    assert once == savedRelays + [first];
    var twice := GetData(once, second).trustedRelays;
    assert twice == once + [second];
    assert savedRelays + [first] + [second] == savedRelays + [first, second];
  }
}
