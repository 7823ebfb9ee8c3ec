/** Reservation records and weighted sums over a table of them. */
module Reservations {
  type Id = string
  type Month = string

  datatype Reservation = Reservation(tpmEst: int, budgetEst: int, month: Month)

  type Table = map<Id, Reservation>

  /** The sum of `weight` over every reservation in the table. */
  ghost function Sum(held: Table, weight: Reservation -> int): int
    decreases |held|
  {
    if held == map[] then 0
    else
      var id :| id in held;
      weight(held[id]) + Sum(held - {id}, weight)
  }

  /** The order in which a table is summed does not matter: any entry can be taken out first. */
  lemma {:induction false} SumWithout(held: Table, id: Id, weight: Reservation -> int)
    requires id in held
    ensures Sum(held, weight) == weight(held[id]) + Sum(held - {id}, weight)
    decreases |held|
  {
    var first :| first in held && Sum(held, weight) == weight(held[first]) + Sum(held - {first}, weight);
    if first == id {
    } else {
      SumWithout(held - {first}, id, weight);
      SumWithout(held - {id}, first, weight);
      assert held - {first} - {id} == held - {id} - {first};
    }
  }

  lemma SumWith(held: Table, id: Id, r: Reservation, weight: Reservation -> int)
    requires id !in held
    ensures Sum(held[id := r], weight) == weight(r) + Sum(held, weight)
  {
    SumWithout(held[id := r], id, weight);
    assert held[id := r] - {id} == held;
  }

  /** Putting an entry in adds its weight, less the weight of the entry it replaces. */
  lemma SumPut(held: Table, id: Id, r: Reservation, weight: Reservation -> int)
    ensures Sum(held[id := r], weight) + (if id in held then weight(held[id]) else 0) == weight(r) + Sum(held, weight)
  {
    if id in held {
      SumWithout(held, id, weight);
      SumWith(held - {id}, id, r, weight);
      assert (held - {id})[id := r] == held[id := r];
    } else {
      SumWith(held, id, r, weight);
    }
  }

  lemma {:induction false} SumNonNegative(held: Table, weight: Reservation -> int)
    requires forall id :: id in held ==> 0 <= weight(held[id])
    ensures 0 <= Sum(held, weight)
    decreases |held|
  {
    if held == map[] {
    } else {
      var id :| id in held;
      SumWithout(held, id, weight);
      SumNonNegative(held - {id}, weight);
    }
  }

  function TokensOf(): Reservation -> int {
    (r: Reservation) => r.tpmEst
  }

  function BudgetOf(month: Month): Reservation -> int {
    (r: Reservation) => if r.month == month then r.budgetEst else 0
  }
}
