/** The one wrapper type the models share. */
module Wrappers {

  datatype Option<+T> = None | Some(value: T)

  /** Sets are walked in no particular order. */
  method Pick<T(==)>(s: set<T>) returns (x: T)
    requires s != {}
    ensures x in s
  {
    x :| x in s;
  }

  lemma SomeOf<T>(s: set<T>) returns (x: T)
    requires s != {}
    ensures x in s
  {
    x :| x in s;
  }

  lemma KeyOf<K, V>(m: map<K, V>, x: V) returns (k: K)
    requires x in m.Values
    ensures k in m && m[k] == x
  {
    k :| k in m && m[k] == x;
  }
}
