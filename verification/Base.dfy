/** Small types shared by every part of the model. */
module Base {

  datatype Option<+T> = None | Some(value: T)

  /**
   How one call into the database ended, seen from the caller.  `LostAfter` is
   the ambiguous case: the statement took effect and the caller was told that
   it failed.
   */
  datatype Io = Ok | LostBefore | LostAfter {
    predicate Applied() {
      Ok? || LostAfter?
    }
  }

  function Min(a: int, b: int): (m: int)
    ensures m <= a && m <= b && (m == a || m == b)
  {
    if a <= b then a else b
  }

  lemma Member<T>(s: set<T>) returns (x: T)
    requires s != {}
    ensures x in s
  {
    x :| x in s;
  }

  /** An element of a set, in no particular order: how a loop over a map's keys takes the next one. */
  method Choose<T(==)>(s: set<T>) returns (x: T)
    requires s != {}
    ensures x in s
  {
    x :| x in s;
  }
}
