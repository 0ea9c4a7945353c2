/** `str(uuid4())`, abstracted as an oracle that never hands out the same
    identifier twice. */
module Uuid {

  /** The identifiers issued so far are remembered in `issued`; every new
      one is longer than all of them, so it cannot repeat one. */
  class IdOracle {
    ghost var issued: set<string>
    var counter: nat

    ghost predicate Valid()
      reads this
    {
      forall s :: s in issued ==> |s| < counter
    }

    constructor ()
      ensures Valid() && issued == {}
    {
      issued := {};
      counter := 0;
    }

    /** One call of `uuid4()`: an identifier distinct from every earlier one. */
    method Fresh() returns (id: string)
      requires Valid()
      modifies this
      ensures Valid()
      ensures id !in old(issued)
      ensures issued == old(issued) + {id}
    {
      id := seq(counter, _ => 'u');
      issued := issued + {id};
      counter := counter + 1;
    }
  }
}
