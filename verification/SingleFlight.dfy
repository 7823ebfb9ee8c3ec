/** In-process collapsing of concurrent work on one key: the first caller leads, the others wait. */
module SingleFlight {
  import opened Common

  datatype Outcome<T> = Pending | Resolved(value: T) | Rejected

  /** A future that can be set once. */
  class Future<T> {
    var outcome: Outcome<T>

    constructor ()
      ensures outcome == Pending
    {
      outcome := Pending;
    }
  }

  datatype Flight<T(!new)> = Flight(key: string, future: Future<T>, leader: bool)

  class SingleFlight<T(!new)> {
    var futures: map<string, Future<T>>

    constructor ()
      ensures futures == map[]
    {
      futures := map[];
    }

    /** Exactly the caller that finds no future for the key leads; everyone else shares that future. */
    method Acquire(key: string) returns (flight: Flight<T>)
      modifies this
      ensures flight.key == key && flight.leader == (key !in old(futures))
      ensures flight.leader ==> fresh(flight.future) && flight.future.outcome == Pending
      ensures !flight.leader ==> flight.future == old(futures)[key]
      ensures futures == old(futures)[key := flight.future]
    {
      if key in futures {
        return Flight(key, futures[key], false);
      }
      var future := new Future<T>();
      futures := futures[key := future];
      return Flight(key, future, true);
    }

    /** The first outcome stays: later resolves and rejects change nothing. */
    method Resolve(flight: Flight<T>, value: T)
      modifies flight.future
      ensures flight.future.outcome == if old(flight.future.outcome) == Pending then Resolved(value)
                                       else old(flight.future.outcome)
    {
      if flight.future.outcome.Pending? {
        flight.future.outcome := Resolved(value);
      }
    }

    method Reject(flight: Flight<T>)
      modifies flight.future
      ensures flight.future.outcome == if old(flight.future.outcome) == Pending then Rejected
                                       else old(flight.future.outcome)
    {
      if flight.future.outcome.Pending? {
        flight.future.outcome := Rejected;
      }
    }

    /** Waiters keep their future; the next caller of the key leads again. */
    method Release(flight: Flight<T>)
      modifies this
      ensures futures == old(futures) - {flight.key}
    {
      futures := futures - {flight.key};
    }
  }
}
