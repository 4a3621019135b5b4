/** Domain names as label sequences, leftmost label first, and the label-aligned suffix match
    (internal/resolver/helpers.go:30-75, internal/revzone/revzone.go:191-200). Names are lower case. */
module Names {
  import opened Options

  type Label = string
  type Name = seq<Label>

  /** isSuffixLabel: `apex` is the name itself or follows a dot in it. The root follows no dot. */
  predicate Under(name: Name, apex: Name) {
    name == apex || (apex != [] && |apex| < |name| && name[|name| - |apex|..] == apex)
  }

  /** Labels joined by dots. */
  function Text(name: Name): (s: string) {
    if name == [] then "" else if |name| == 1 then name[0] else name[0] + "." + Text(name[1..])
  }

  /** Bytes of the name's text with its final dot. */
  function Length(name: Name): (n: nat) {
    if name == [] then 1 else if |name| == 1 then |name[0]| + 1 else |name[0]| + 1 + Length(name[1..])
  }

  /** relativeOwner: the labels in front of the apex. */
  function Owner(name: Name, apex: Name): (o: Name)
    requires Under(name, apex)
    ensures o + apex == name
  {
    name[..|name| - |apex|]
  }

  /** The longest member of `apexes` that the name is under. */
  function Longest(name: Name, apexes: set<Name>): (best: Option<Name>) {
    if name in apexes then Some(name) else if |name| <= 1 then None else Longest(name[1..], apexes)
  }

  lemma {:induction false} UnderTail(name: Name, apex: Name)
    requires |name| > 1 && name != apex
    ensures Under(name, apex) <==> Under(name[1..], apex)
  {
    if |apex| <= |name| - 1 { assert name[1..][|name| - 1 - |apex|..] == name[|name| - |apex|..]; }
  }

  /** Longest is what its name says: a member the name is under, beneath every other such member; and
      nothing exactly when there is none. */
  lemma {:induction false} LongestIs(name: Name, apexes: set<Name>)
    ensures Longest(name, apexes).None? <==> forall a :: a in apexes ==> !Under(name, a)
    ensures Longest(name, apexes).Some? ==>
              var best := Longest(name, apexes).value;
              best in apexes && Under(name, best) && forall a :: a in apexes && Under(name, a) ==> Under(best, a)
  {
    if name !in apexes && |name| > 1 {
      LongestIs(name[1..], apexes);
      forall a | a in apexes ensures Under(name, a) <==> Under(name[1..], a) { UnderTail(name, a); }
    }
  }

  lemma {:induction false} LengthTail(name: Name, k: nat)
    requires k < |name|
    ensures Length(name[k..]) <= Length(name) && (k > 0 ==> Length(name[k..]) < Length(name))
  {
    if k > 0 {
      LengthTail(name[1..], k - 1);
      assert name[1..][k-1..] == name[k..];
    }
  }

  /** Of two suffixes of one name, the longer text is the one with more labels. */
  lemma {:induction false} LongerIsBelow(name: Name, a: Name, b: Name)
    requires Under(name, a) && Under(name, b)
    ensures Length(a) > Length(b) ==> Under(a, b)
    ensures Under(a, b) && a != b ==> Length(a) > Length(b)
  {
    if |a| >= |b| {
      assert a == name[|name| - |a|..] && b == name[|name| - |b|..];
      if a != b {
        assert |b| > 0;
        assert a[|a| - |b|..] == b;
        LengthTail(a, |a| - |b|);
      }
    } else if a != [] {
      assert b[|b| - |a|..] == a;
      LengthTail(b, |b| - |a|);
    }
  }

  /** longestZoneSuffix and longestReverseZone: the map is visited in no particular order. */
  method LongestSuffix(name: Name, apexes: set<Name>) returns (best: Option<Name>)
    ensures best == Longest(name, apexes)
  {
    best := None;
    var bestLen := 0;
    var todo := apexes;
    while todo != {}
      invariant todo <= apexes
      invariant best.None? ==> bestLen == 0 && forall a :: a in apexes - todo ==> !Under(name, a)
      invariant best.Some? ==> && best.value in apexes && Under(name, best.value) && bestLen == Length(best.value)
                               && forall a :: a in apexes - todo && Under(name, a) ==> Length(a) <= bestLen
      decreases todo
    {
      var apex :| apex in todo;
      todo := todo - {apex};
      if Under(name, apex) && Length(apex) > bestLen {
        best, bestLen := Some(apex), Length(apex);
      }
    }
    LongestIs(name, apexes);
    if best.Some? {
      var l := Longest(name, apexes).value;
      LongerIsBelow(name, l, best.value);
      LongerIsBelow(name, best.value, l);
    }
  }
}
