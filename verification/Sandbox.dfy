/** The containers that are live, as far as starting and destroying them goes. */
module Sandbox {
  import opened Options

  class Runtime {
    var live: set<nat>
    var nextId: nat
    /** The most containers that were ever live at once. */
    ghost var peak: nat

    ghost predicate Valid()
      reads this
    {
      (forall id :: id in live ==> id < nextId) && |live| <= peak
    }

    /** How many containers were ever started. */
    function Started(): nat
      reads this
    {
      nextId
    }

    constructor ()
      ensures Valid() && live == {} && Started() == 0 && peak == 0
    {
      live, nextId, peak := {}, 0, 0;
    }

    method StartContainer(works: bool) returns (id: Option<nat>)
      requires Valid()
      modifies this
      ensures Valid() && (works <==> id.Some?)
      ensures id.None? ==> live == old(live) && Started() == old(Started()) && peak == old(peak)
      ensures id.Some? ==> id.value !in old(live) && live == old(live) + {id.value} && Started() == old(Started()) + 1
      ensures id.Some? ==> peak == if |live| > old(peak) then |live| else old(peak)
    {
      if !works {
        return None;
      }
      id := Some(nextId);
      live, nextId := live + {nextId}, nextId + 1;
      peak := if |live| > peak then |live| else peak;
    }

    method DestroyContainer(id: nat)
      requires Valid()
      modifies this
      ensures Valid() && live == old(live) - {id} && Started() == old(Started()) && peak == old(peak)
    {
      assert |live - {id}| <= |live|;
      live := live - {id};
    }
  }
}
