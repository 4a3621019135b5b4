/** Sorting by text, as `sort.Strings` and `sort.Slice` on string keys do. */
module Sorting {

  /** Byte order on strings. */
  predicate Lex(a: string, b: string) {
    b != [] && (a == [] || a[0] < b[0] || (a[0] == b[0] && Lex(a[1..], b[1..])))
  }

  function Insert<T>(key: T -> string, x: T, s: seq<T>): (r: seq<T>)
    ensures multiset(r) == multiset(s) + multiset{x}
  {
    if s == [] || !Lex(key(s[0]), key(x)) then [x] + s
    else
      assert s == [s[0]] + s[1..];
      [s[0]] + Insert(key, x, s[1..])
  }

  /** Elements in byte order of their key; ties keep their order. */
  function SortBy<T>(key: T -> string, s: seq<T>): (r: seq<T>)
    ensures multiset(r) == multiset(s)
  {
    if s == [] then []
    else
      assert s == [s[0]] + s[1..];
      Insert(key, s[0], SortBy(key, s[1..]))
  }

  lemma {:induction false} LexAsym(a: string, b: string)
    requires Lex(a, b)
    ensures !Lex(b, a) && a != b
  {
    if a != [] && a[0] == b[0] { LexAsym(a[1..], b[1..]); }
  }

  lemma {:induction false} NotLexTrans(a: string, b: string, c: string)
    requires !Lex(b, a) && !Lex(c, b)
    ensures !Lex(c, a)
  {
    if a != [] && b != [] && c != [] && a[0] == b[0] == c[0] { NotLexTrans(a[1..], b[1..], c[1..]); }
  }

  lemma {:induction false} LexTotal(a: string, b: string)
    requires !Lex(a, b) && !Lex(b, a)
    ensures a == b
  {
    if a != [] && b != [] {
      LexTotal(a[1..], b[1..]);
      assert a == [a[0]] + a[1..] && b == [b[0]] + b[1..];
    }
  }

  /** In byte order by `key`. */
  ghost predicate InOrder<T>(key: T -> string, s: seq<T>) {
    forall i, j :: 0 <= i < j < |s| ==> !Lex(key(s[j]), key(s[i]))
  }

  lemma {:induction false} InsertInOrder<T>(key: T -> string, x: T, s: seq<T>)
    requires InOrder(key, s)
    ensures InOrder(key, Insert(key, x, s))
  {
    if s == [] {
    } else if !Lex(key(s[0]), key(x)) {
      forall j | 0 <= j < |s| ensures !Lex(key(s[j]), key(x)) {
        if j > 0 { NotLexTrans(key(x), key(s[0]), key(s[j])); }
      }
    } else {
      var rest := Insert(key, x, s[1..]);
      InsertInOrder(key, x, s[1..]);
      LexAsym(key(s[0]), key(x));
      forall j | 0 <= j < |rest| ensures !Lex(key(rest[j]), key(s[0])) {
        assert rest[j] in multiset(rest);
        assert rest[j] == x || rest[j] in s[1..];
        if rest[j] != x {
          var i :| 0 <= i < |s[1..]| && s[1..][i] == rest[j];
          assert s[i+1] == rest[j];
        }
      }
    }
  }

  lemma {:induction false} SortInOrder<T>(key: T -> string, s: seq<T>)
    ensures InOrder(key, SortBy(key, s))
  {
    if s != [] {
      SortInOrder(key, s[1..]);
      InsertInOrder(key, s[0], SortBy(key, s[1..]));
    }
  }
}
