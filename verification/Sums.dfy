/** Sums over the values of a map. */
module Sums {
  ghost function Sum<T>(items: map<string, T>, measure: T -> nat): nat
    decreases |items|
  {
    if items == map[] then 0
    else
      var id :| id in items;
      measure(items[id]) + Sum(items - {id}, measure)
  }

  lemma {:induction false} SumWithout<T>(items: map<string, T>, measure: T -> nat, id: string)
    requires id in items
    ensures Sum(items, measure) == measure(items[id]) + Sum(items - {id}, measure)
    decreases |items|
  {
    var first :| first in items && Sum(items, measure) == measure(items[first]) + Sum(items - {first}, measure);
    if first != id {
      SumWithout(items - {first}, measure, id);
      SumWithout(items - {id}, measure, first);
      assert items - {first} - {id} == items - {id} - {first};
    }
  }

  lemma SumUpdate<T>(items: map<string, T>, measure: T -> nat, id: string, item: T)
    ensures Sum(items[id := item], measure) ==
            Sum(items, measure) + measure(item) - (if id in items then measure(items[id]) else 0)
  {
    SumWithout(items[id := item], measure, id);
    if id in items {
      SumWithout(items, measure, id);
      assert items[id := item] - {id} == items - {id};
    } else {
      assert items[id := item] - {id} == items;
    }
  }
}
