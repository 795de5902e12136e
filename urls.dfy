/**
 * Object URLs (`URL.createObjectURL` / `URL.revokeObjectURL`). A handle is a
 * number; the registry hands out the next unused one and keeps the set of
 * handles that have been created and not yet revoked.
 */
module Urls {

  type Url = nat

  /** The browser's object URLs: the next handle and the live ones. */
  datatype Registry = Registry(next: Url, live: set<Url>)

  /** Every live handle was handed out before, so a new one is never live. */
  predicate WellFormed(r: Registry) {
    forall u :: u in r.live ==> u < r.next
  }

  /** `URL.createObjectURL`: a handle that was not live before and is live now. */
  function Create(r: Registry): (res: (Url, Registry))
    requires WellFormed(r)
    ensures WellFormed(res.1)
    ensures res.0 !in r.live && res.1.live == r.live + {res.0}
  {
    (r.next, Registry(r.next + 1, r.live + {r.next}))
  }

  /** `URL.revokeObjectURL`: the handle is no longer live; revoking a dead handle does nothing. */
  function Revoke(r: Registry, u: Url): (r': Registry)
    requires WellFormed(r)
    ensures WellFormed(r')
    ensures r'.live == r.live - {u} && r'.next == r.next
  {
    r.(live := r.live - {u})
  }

  /** Two creations never hand out the same handle. */
  lemma {:induction false} CreateIsFresh(r: Registry)
    requires WellFormed(r)
    ensures Create(Create(r).1).0 != Create(r).0
  {
    var (u, r1) := Create(r);
    assert u in r1.live;
  }

  /** The browser's registry as an object the uploaders share. */
  class UrlRegistry {
    var next: Url
    ghost var live: set<Url>

    ghost predicate Valid()
      reads this
    {
      WellFormed(State())
    }

    ghost function State(): Registry
      reads this
    {
      Registry(next, live)
    }

    constructor ()
      ensures Valid() && State() == Registry(0, {})
    {
      next := 0;
      live := {};
    }

    method CreateObjectUrl() returns (u: Url)
      requires Valid()
      modifies this
      ensures Valid()
      ensures (u, State()) == Create(old(State()))
    {
      u := next;
      next := next + 1;
      live := live + {u};
    }

    method RevokeObjectUrl(u: Url)
      requires Valid()
      modifies this
      ensures Valid()
      ensures State() == Revoke(old(State()), u)
    {
      live := live - {u};
    }
  }
}
