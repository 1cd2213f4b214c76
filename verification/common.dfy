/** Values that may be missing, calls that may fail, and picking from a set. */
module Wrappers {

  datatype Option<+T> = None | Some(value: T)

  datatype Fallible<+T, +E> = Ok(value: T) | Err(error: E) {
    predicate IsFailure() {
      Err?
    }

    function PropagateFailure<U>(): Fallible<U, E>
      requires Err?
    {
      Err(error)
    }

    function Extract(): T
      requires Ok?
    {
      value
    }
  }

  /** Any member: the order of iteration does not matter to the caller. */
  method PickOne<T(==)>(s: set<T>) returns (x: T)
    requires s != {}
    ensures x in s
  {
    x :| x in s;
  }
}

/** Arithmetic and text checks that several programs use. */
module Shared {

  function Max(a: int, b: int): int {
    if a < b then b else a
  }

  function Min(a: int, b: int): int {
    if a < b then a else b
  }

  /** A SHA-256 digest in lower-case hexadecimal. */
  predicate IsDigest(s: string) {
    |s| == 64 && forall c <- s :: '0' <= c <= '9' || 'a' <= c <= 'f'
  }
}

/** Strings in the order in which Python sorts them: by code point. */
module StringOrder {
  import opened Wrappers

  predicate Less(a: string, b: string) {
    b != "" && (a == "" || a[0] < b[0] || (a[0] == b[0] && Less(a[1..], b[1..])))
  }

  lemma LessIsTransitive(a: string, b: string, c: string)
    requires Less(a, b) && Less(b, c)
    ensures Less(a, c)
  {
  }

  lemma {:induction false} LessIsTotal(a: string, b: string)
    ensures Less(a, b) || Less(b, a) || a == b
    ensures !(Less(a, b) && Less(b, a)) && !Less(a, a)
  {
    if a != "" && b != "" {
      LessIsTotal(a[1..], b[1..]);
    }
    if a != "" {
      LessIsTotal(a[1..], a[1..]);
    }
  }

  /** The first of some strings. */
  method PickLeast(s: set<string>) returns (x: string)
    requires s != {}
    ensures x in s && forall y <- s :: y == x || Less(x, y)
  {
    x := PickOne(s);
    var todo := s - {x};
    while todo != {}
      invariant x in s && todo <= s && forall y <- s - todo :: y == x || Less(x, y)
      decreases todo
    {
      var y := PickOne(todo);
      LessIsTotal(x, y);
      if Less(y, x) {
        forall z | z in s - todo && z != x
          ensures Less(y, z)
        {
          LessIsTransitive(y, x, z);
        }
        x := y;
      }
      todo := todo - {y};
    }
  }
}
