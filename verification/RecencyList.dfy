/** A doubly linked list used as a recency queue (container/list in internal/anscache/anscache.go):
    elements are taken out wherever they are and put in at the front only. */
module RecencyList {
  datatype List<T> = Nil | Cons(head: T, tail: List<T>)

  function Len<T>(l: List<T>): (n: nat) {
    if l.Nil? then 0 else 1 + Len(l.tail)
  }

  function Elements<T>(l: List<T>): (s: set<T>) {
    if l.Nil? then {} else {l.head} + Elements(l.tail)
  }

  predicate Distinct<T(==)>(l: List<T>) {
    l.Cons? ==> l.head !in Elements(l.tail) && Distinct(l.tail)
  }

  /** list.Remove, of an element that occurs once. */
  function Without<T(==)>(l: List<T>, x: T): (r: List<T>)
    ensures Elements(r) == Elements(l) - {x}
    ensures x !in Elements(l) ==> r == l
  {
    if l.Nil? then Nil
    else if l.head == x then Without(l.tail, x)
    else Cons(l.head, Without(l.tail, x))
  }

  /** list.MoveToFront, and list.PushFront of a new element. */
  function Front<T(==)>(l: List<T>, x: T): (r: List<T>)
    ensures Elements(r) == Elements(l) + {x}
  {
    Cons(x, Without(l, x))
  }

  /** list.Back. */
  function Back<T>(l: List<T>): (x: T)
    requires l.Cons?
    ensures x in Elements(l)
  {
    if l.tail.Nil? then l.head else Back(l.tail)
  }

  lemma {:induction false} WithoutDistinct<T>(l: List<T>, x: T)
    requires Distinct(l)
    ensures Distinct(Without(l, x))
    ensures Len(Without(l, x)) == if x in Elements(l) then Len(l) - 1 else Len(l)
  {
    if l.Cons? { WithoutDistinct(l.tail, x); }
  }

  lemma FrontDistinct<T>(l: List<T>, x: T)
    requires Distinct(l)
    ensures Distinct(Front(l, x))
    ensures Len(Front(l, x)) == if x in Elements(l) then Len(l) else Len(l) + 1
  {
    WithoutDistinct(l, x);
  }
}
