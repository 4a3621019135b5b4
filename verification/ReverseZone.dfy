/** Reverse zones and longest-prefix match (internal/revzone/revzone.go:31-88, 191-200,
    internal/resolver/helpers.go:50-59; section 3.5 of RFC 1035, section 2.5 of RFC 3596). */
module ReverseZone {
  import opened Options
  import opened Names
  import opened Sorting

  datatype Addr = V4(value: nat) | V6(value: nat)

  datatype Prefix = Prefix(addr: Addr, bits: nat)

  /** `k`-fold halving: a right shift. */
  function Shr(v: nat, k: nat): (r: nat) {
    if k == 0 then v else Shr(v, k - 1) / 2
  }

  function Shl(v: nat, k: nat): (r: nat) {
    if k == 0 then v else Shl(v, k - 1) * 2
  }

  function Width(a: Addr): (w: nat) { if a.V4? then 32 else 128 }

  predicate ValidPrefix(p: Prefix) {
    Shr(p.addr.value, Width(p.addr)) == 0 && p.bits <= Width(p.addr)
  }

  /** CIDR containment: same family, no shorter, and the same leading bits. */
  predicate Covers(p: Prefix, q: Prefix) {
    && p.addr.V4? == q.addr.V4? && p.bits <= q.bits && p.bits <= Width(p.addr)
    && Shr(p.addr.value, Width(p.addr) - p.bits) == Shr(q.addr.value, Width(q.addr) - p.bits)
  }

  /** Prefix.Masked: the bits after the prefix become zero. */
  function Masked(p: Prefix): (m: Prefix) {
    var host := if p.bits <= Width(p.addr) then Width(p.addr) - p.bits else 0;
    if p.addr.V4? then Prefix(V4(Shl(Shr(p.addr.value, host), host)), p.bits)
    else Prefix(V6(Shl(Shr(p.addr.value, host), host)), p.bits)
  }

  /** Addr.Unmap: an IPv4-mapped IPv6 address is the IPv4 address it carries. */
  predicate Is4In6(a: Addr) {
    a.V6? && Shr(a.value, 32) == 0xffff
  }

  function Unmapped(a: Addr): (r: Addr) {
    if Is4In6(a) then V4(a.value % 0x1_0000_0000) else a
  }

  // ---- digits and their labels ----

  function Char(base: char, n: nat): (c: char)
    requires base as int + n < 128
  {
    (base as int + n) as char
  }

  /** The decimal digits of an octet. */
  function Digits(n: nat): (d: seq<nat>)
    requires n < 256
    ensures forall i :: 0 <= i < |d| ==> d[i] < 10
  {
    if n < 10 then [n] else if n < 100 then [n / 10, n % 10] else [n / 100, n / 10 % 10, n % 10]
  }

  /** An octet in decimal. */
  function Dec(n: nat): (s: string)
    requires n < 256
    ensures |s| == |Digits(n)| && forall i :: 0 <= i < |s| ==> s[i] == Char('0', Digits(n)[i])
  {
    var d := Digits(n);
    seq(|d|, i requires 0 <= i < |d| => Char('0', d[i]))
  }

  /** A nibble in hexadecimal. */
  function Hex(n: nat): (s: string)
    requires n < 16
  {
    if n < 10 then [Char('0', n)] else [Char('a', n - 10)]
  }

  lemma {:induction false} CharInjective(base: char, m: nat, n: nat)
    requires base as int + m < 128 && base as int + n < 128 && Char(base, m) == Char(base, n)
    ensures m == n
  {
    assert Char(base, m) as int == base as int + m && Char(base, n) as int == base as int + n;
  }

  lemma {:induction false} DigitsInjective(a: nat, b: nat)
    requires a < 256 && b < 256 && Digits(a) == Digits(b)
    ensures a == b
  {
    var d, e := Digits(a), Digits(b);
    assert |d| == |e| && d[0] == e[0];
    if |d| > 1 { assert d[1] == e[1]; }
    if |d| > 2 { assert d[2] == e[2]; }
  }

  lemma {:induction false} DecInjective(a: nat, b: nat)
    requires a < 256 && b < 256 && Dec(a) == Dec(b)
    ensures a == b
  {
    var d, e := Digits(a), Digits(b);
    forall i | 0 <= i < |d| ensures d[i] == e[i] {
      assert Dec(a)[i] == Dec(b)[i];
      CharInjective('0', d[i], e[i]);
    }
    DigitsInjective(a, b);
  }

  lemma {:induction false} HexInjective(a: nat, b: nat)
    requires a < 16 && b < 16 && Hex(a) == Hex(b)
    ensures a == b
  {
    assert Hex(a)[0] == Hex(b)[0];
  }

  /** The i-th most significant byte of a `width`-bit value. */
  function Octet(v: nat, width: nat, i: nat): (o: nat)
    requires 8 * (i + 1) <= width
    ensures o < 256
  {
    Shr(v, width - 8 * (i + 1)) % 256
  }

  /** The i-th most significant nibble of a 128-bit value. */
  function Nibble(v: nat, i: nat): (o: nat)
    requires i < 32
    ensures o < 16
  {
    Shr(v, 128 - 4 * (i + 1)) % 16
  }

  function Label4(v: nat, i: nat): (l: Label)
    requires i < 4
  {
    Dec(Octet(v, 32, i))
  }

  function Label6(v: nat, i: nat): (l: Label)
    requires i < 32
  {
    Hex(Nibble(v, i))
  }

  /** The first `n` digits of an address, as labels, last digit first. */
  function Labels4(v: nat, n: nat): (l: Name)
    requires n <= 4
    ensures |l| == n && forall j :: 0 <= j < n ==> l[j] == Label4(v, n - 1 - j)
  {
    if n == 0 then [] else [Label4(v, n - 1)] + Labels4(v, n - 1)
  }

  function Labels6(v: nat, n: nat): (l: Name)
    requires n <= 32
    ensures |l| == n && forall j :: 0 <= j < n ==> l[j] == Label6(v, n - 1 - j)
  {
    if n == 0 then [] else [Label6(v, n - 1)] + Labels6(v, n - 1)
  }

  // ---- the zone of a prefix ----

  /** `Fault` is the out-of-range array index the code runs into. */
  datatype Result = Zone(apex: Name) | Unaligned | Fault

  const ROOT4: Name := ["in-addr", "arpa"]
  const ROOT6: Name := ["ip6", "arpa"]

  function ZoneOf(p: Prefix): (r: Result) {
    var a := Unmapped(Masked(p).addr);
    if a.V4? then
      if p.bits % 8 != 0 then Unaligned
      else if p.bits / 8 > 4 then Fault
      else Zone(Labels4(a.value, p.bits / 8) + ROOT4)
    else
      if p.bits % 4 != 0 then Unaligned
      else if p.bits / 4 > 32 then Fault
      else Zone(Labels6(a.value, p.bits / 4) + ROOT6)
  }

  method ZoneFor(p: Prefix) returns (r: Result)
    ensures r == ZoneOf(p)
  {
    var addr := Unmapped(Masked(p).addr);
    if addr.V4? {
      if p.bits % 8 != 0 { return Unaligned; }
      var n := p.bits / 8;
      if n > 4 { return Fault; } // o[n-1] is out of range
      var labels: Name := [];
      var i := n;
      while i > 0
        invariant 0 <= i <= n && |labels| == n - i
        invariant forall j :: 0 <= j < n - i ==> labels[j] == Label4(addr.value, n - 1 - j)
      {
        i := i - 1;
        labels := labels + [Dec(Octet(addr.value, 32, i))];
      }
      assert labels == Labels4(addr.value, n);
      return Zone(labels + ROOT4);
    }
    if p.bits % 4 != 0 { return Unaligned; }
    var n := p.bits / 4;
    if n > 32 { return Fault; }
    var nibbles := Nibbles(addr.value);
    var labels: Name := [];
    var i := n;
    while i > 0
      invariant 0 <= i <= n && |labels| == n - i
      invariant forall j :: 0 <= j < n - i ==> labels[j] == Label6(addr.value, n - 1 - j)
    {
      i := i - 1;
      labels := labels + [Hex(nibbles[i])];
    }
    assert labels == Labels6(addr.value, n);
    r := Zone(labels + ROOT6);
  }

  /** Splitting the sixteen bytes of an IPv6 address into nibbles. */
  method Nibbles(v: nat) returns (nibbles: seq<nat>)
    ensures |nibbles| == 32 && forall j :: 0 <= j < 32 ==> nibbles[j] == Nibble(v, j)
  {
    nibbles := [];
    for i := 0 to 16
      invariant |nibbles| == 2 * i && forall j :: 0 <= j < 2 * i ==> nibbles[j] == Nibble(v, j)
    {
      var b := Octet(v, 128, i);
      ByteHalves(v, i);
      nibbles := nibbles + [b / 16, b % 16];
    }
  }

  // ---- shifts ----

  lemma {:induction false} Shr4(v: nat, k: nat)
    ensures Shr(v, k + 4) == Shr(v, k) / 16
  {
    var x := Shr(v, k);
    assert Shr(v, k + 1) == x / 2;
    assert Shr(v, k + 2) == x / 2 / 2;
    assert Shr(v, k + 3) == x / 2 / 2 / 2;
    assert Shr(v, k + 4) == x / 2 / 2 / 2 / 2;
  }

  lemma {:induction false} Shr8(v: nat, k: nat)
    ensures Shr(v, k + 8) == Shr(v, k) / 256
  {
    Shr4(v, k);
    Shr4(v, k + 4);
    assert Shr(v, k) / 16 / 16 == Shr(v, k) / 256;
  }

  lemma {:induction false} ByteHalves(v: nat, i: nat)
    requires i < 16
    ensures Octet(v, 128, i) / 16 == Nibble(v, 2 * i) && Octet(v, 128, i) % 16 == Nibble(v, 2 * i + 1)
  {
    var x := Shr(v, 128 - 8 * (i + 1));
    Shr4(v, 128 - 8 * (i + 1));
    HalfByte(x);
  }

  lemma {:induction false} HalfByte(x: nat)
    ensures x % 256 / 16 == x / 16 % 16 && x % 256 % 16 == x % 16
  {
    var a, b, c := x / 256, x % 256 / 16, x % 256 % 16;
    assert x == 16 * (16 * a + b) + c;
    assert x / 16 == 16 * a + b;
  }

  lemma {:induction false} ShrShl(x: nat, h: nat)
    ensures Shr(Shl(x, h), h) == x
  {
    ShrShlBy(x, h, h);
  }

  lemma {:induction false} ShrShlBy(x: nat, h: nat, k: nat)
    requires k <= h
    ensures Shr(Shl(x, h), k) == Shl(x, h - k)
  {
    if k > 0 { ShrShlBy(x, h, k - 1); }
  }

  lemma {:induction false} ShrMore(v: nat, w: nat, j: nat, k: nat)
    requires j <= k && Shr(v, j) == Shr(w, j)
    ensures Shr(v, k) == Shr(w, k)
  {
    if j < k { ShrMore(v, w, j, k - 1); }
  }

  // ---- leading digits are leading bits ----

  lemma {:induction false} LeadingOctets(v: nat, w: nat, n: nat)
    requires n <= 4 && Shr(v, 32) == 0 && Shr(w, 32) == 0
    ensures Shr(v, 32 - 8 * n) == Shr(w, 32 - 8 * n) <==> forall i :: 0 <= i < n ==> Octet(v, 32, i) == Octet(w, 32, i)
  {
    if n > 0 {
      LeadingOctets(v, w, n - 1);
      var x, y := Shr(v, 32 - 8 * n), Shr(w, 32 - 8 * n);
      Shr8(v, 32 - 8 * n);
      Shr8(w, 32 - 8 * n);
      assert Octet(v, 32, n - 1) == x % 256 && Octet(w, 32, n - 1) == y % 256;
      assert x == y <==> x / 256 == y / 256 && x % 256 == y % 256;
    }
  }

  lemma {:induction false} LeadingNibbles(v: nat, w: nat, n: nat)
    requires n <= 32 && Shr(v, 128) == 0 && Shr(w, 128) == 0
    ensures Shr(v, 128 - 4 * n) == Shr(w, 128 - 4 * n) <==> forall i :: 0 <= i < n ==> Nibble(v, i) == Nibble(w, i)
  {
    if n > 0 {
      LeadingNibbles(v, w, n - 1);
      var x, y := Shr(v, 128 - 4 * n), Shr(w, 128 - 4 * n);
      Shr4(v, 128 - 4 * n);
      Shr4(w, 128 - 4 * n);
      assert Nibble(v, n - 1) == x % 16 && Nibble(w, n - 1) == y % 16;
      assert x == y <==> x / 16 == y / 16 && x % 16 == y % 16;
    }
  }

  lemma {:induction false} MaskedBits(p: Prefix, k: nat)
    requires ValidPrefix(p) && Width(p.addr) - p.bits <= k
    ensures Shr(Masked(p).addr.value, k) == Shr(p.addr.value, k)
  {
    var host := Width(p.addr) - p.bits;
    ShrShl(Shr(p.addr.value, host), host);
    ShrMore(Masked(p).addr.value, p.addr.value, host, k);
  }

  lemma {:induction false} MappedIff(p: Prefix)
    requires ValidPrefix(p)
    ensures Is4In6(Masked(p).addr) <==> Is4In6(p.addr) && p.bits >= 96
  {
    if p.addr.V6? {
      var host := 128 - p.bits;
      if host <= 32 {
        MaskedBits(p, 32);
      } else {
        var x := Shr(p.addr.value, host);
        ShrShlBy(x, host, 32);
        assert Shl(x, host - 32) == Shl(x, host - 33) * 2;
      }
    }
  }

  /** Which prefixes have a zone, which are refused as unaligned, and which the code cannot handle: the
      IPv4-mapped IPv6 prefixes on an octet boundary, whose length it reads as an IPv4 length. */
  lemma {:induction false} ZoneKinds(p: Prefix)
    requires ValidPrefix(p)
    ensures ZoneOf(p).Fault? <==> Is4In6(p.addr) && p.bits >= 96 && p.bits % 8 == 0
    ensures ZoneOf(p).Zone? <==> if p.addr.V4? then p.bits % 8 == 0
                                 else p.bits % 4 == 0 && !(Is4In6(p.addr) && p.bits >= 96)
  {
    MappedIff(p);
  }

  // ---- suffixes of zone names ----

  lemma {:induction false} Tail4(w: nat, n: nat, k: nat)
    requires n <= k <= 4
    ensures (Labels4(w, k) + ROOT4)[k - n..] == Labels4(w, n) + ROOT4
  {
    var long, short := Labels4(w, k), Labels4(w, n);
    var tail := long[k - n..];
    assert tail == short by {
      forall j | 0 <= j < n ensures tail[j] == short[j] {}
    }
    assert (long + ROOT4)[k - n..] == long[k - n..] + ROOT4;
  }

  lemma {:induction false} SameLabels4(v: nat, w: nat, n: nat)
    requires n <= 4
    ensures Labels4(v, n) == Labels4(w, n) <==> forall i :: 0 <= i < n ==> Octet(v, 32, i) == Octet(w, 32, i)
  {
    var a, b := Labels4(v, n), Labels4(w, n);
    if a == b {
      forall i | 0 <= i < n ensures Octet(v, 32, i) == Octet(w, 32, i) {
        assert a[n - 1 - i] == b[n - 1 - i];
        DecInjective(Octet(v, 32, i), Octet(w, 32, i));
      }
    }
  }

  lemma {:induction false} Under4(v: nat, n: nat, w: nat, k: nat)
    requires n <= 4 && k <= 4
    ensures Under(Labels4(w, k) + ROOT4, Labels4(v, n) + ROOT4)
            <==> n <= k && forall i :: 0 <= i < n ==> Octet(v, 32, i) == Octet(w, 32, i)
  {
    if n <= k {
      Tail4(w, n, k);
      SameLabels4(v, w, n);
      var a, b := Labels4(v, n), Labels4(w, n);
      assert a + ROOT4 == b + ROOT4 <==> a == b by {
        assert (a + ROOT4)[..n] == a && (b + ROOT4)[..n] == b;
      }
    }
  }

  lemma {:induction false} Tail6(w: nat, n: nat, k: nat)
    requires n <= k <= 32
    ensures (Labels6(w, k) + ROOT6)[k - n..] == Labels6(w, n) + ROOT6
  {
    var long, short := Labels6(w, k), Labels6(w, n);
    var tail := long[k - n..];
    assert tail == short by {
      forall j | 0 <= j < n ensures tail[j] == short[j] {}
    }
    assert (long + ROOT6)[k - n..] == long[k - n..] + ROOT6;
  }

  lemma {:induction false} SameLabels6(v: nat, w: nat, n: nat)
    requires n <= 32
    ensures Labels6(v, n) == Labels6(w, n) <==> forall i :: 0 <= i < n ==> Nibble(v, i) == Nibble(w, i)
  {
    var a, b := Labels6(v, n), Labels6(w, n);
    if a == b {
      forall i | 0 <= i < n ensures Nibble(v, i) == Nibble(w, i) {
        assert a[n - 1 - i] == b[n - 1 - i];
        HexInjective(Nibble(v, i), Nibble(w, i));
      }
    }
  }

  lemma {:induction false} Under6(v: nat, n: nat, w: nat, k: nat)
    requires n <= 32 && k <= 32
    ensures Under(Labels6(w, k) + ROOT6, Labels6(v, n) + ROOT6)
            <==> n <= k && forall i :: 0 <= i < n ==> Nibble(v, i) == Nibble(w, i)
  {
    if n <= k {
      Tail6(w, n, k);
      SameLabels6(v, w, n);
      var a, b := Labels6(v, n), Labels6(w, n);
      assert a + ROOT6 == b + ROOT6 <==> a == b by {
        assert (a + ROOT6)[..n] == a && (b + ROOT6)[..n] == b;
      }
    }
  }

  lemma {:induction false} FamiliesApart(x: Name, y: Name)
    ensures !Under(x + ROOT4, y + ROOT6) && !Under(x + ROOT6, y + ROOT4)
  {
    var a, b := x + ROOT4, y + ROOT6;
    assert a[|a| - 2] == "in-addr" && b[|b| - 2] == "ip6";
    assert "in-addr"[1] != "ip6"[1];
    var c, d := x + ROOT6, y + ROOT4;
    assert c[|c| - 2] == "ip6" && d[|d| - 2] == "in-addr";
  }

  /** A prefix the code derives a zone from. */
  predicate Aligned(p: Prefix) {
    ValidPrefix(p) && ZoneOf(p).Zone?
  }

  /** Containment, read off the masked addresses. */
  lemma {:induction false} CoversMasked(p: Prefix, q: Prefix)
    requires ValidPrefix(p) && ValidPrefix(q) && p.addr.V4? == q.addr.V4?
    ensures var width := Width(p.addr);
      Covers(p, q) <==>
        p.bits <= q.bits && Shr(Masked(p).addr.value, width - p.bits) == Shr(Masked(q).addr.value, width - p.bits)
  {
    MaskedBits(p, Width(p.addr) - p.bits);
    if p.bits <= q.bits { MaskedBits(q, Width(p.addr) - p.bits); }
  }

  lemma {:induction false} Covers4(p: Prefix, q: Prefix, v: nat, w: nat)
    requires ValidPrefix(p) && ValidPrefix(q) && p.addr.V4? && q.addr.V4? && p.bits % 8 == 0 && q.bits % 8 == 0
    requires v == Masked(p).addr.value && w == Masked(q).addr.value
    ensures Under(Labels4(w, q.bits / 8) + ROOT4, Labels4(v, p.bits / 8) + ROOT4) <==> Covers(p, q)
  {
    CoversOctets(p, q, v, w, p.bits / 8, q.bits / 8);
  }

  lemma {:induction false} CoversOctets(p: Prefix, q: Prefix, v: nat, w: nat, n: nat, k: nat)
    requires ValidPrefix(p) && ValidPrefix(q) && p.addr.V4? && q.addr.V4? && p.bits == 8 * n && q.bits == 8 * k
    requires v == Masked(p).addr.value && w == Masked(q).addr.value
    ensures Under(Labels4(w, k) + ROOT4, Labels4(v, n) + ROOT4) <==> Covers(p, q)
  {
    MaskedBits(p, 32);
    MaskedBits(q, 32);
    Zones4(v, n, w, k);
    CoversMasked(p, q);
  }

  lemma {:induction false} Zones4(v: nat, n: nat, w: nat, k: nat)
    requires n <= 4 && k <= 4 && Shr(v, 32) == 0 && Shr(w, 32) == 0
    ensures Under(Labels4(w, k) + ROOT4, Labels4(v, n) + ROOT4)
            <==> n <= k && Shr(v, 32 - 8 * n) == Shr(w, 32 - 8 * n)
  {
    Under4(v, n, w, k);
    LeadingOctets(v, w, n);
  }

  lemma {:induction false} Covers6(p: Prefix, q: Prefix, v: nat, w: nat)
    requires ValidPrefix(p) && ValidPrefix(q) && p.addr.V6? && q.addr.V6? && p.bits % 4 == 0 && q.bits % 4 == 0
    requires v == Masked(p).addr.value && w == Masked(q).addr.value
    ensures Under(Labels6(w, q.bits / 4) + ROOT6, Labels6(v, p.bits / 4) + ROOT6) <==> Covers(p, q)
  {
    CoversNibbles(p, q, v, w, p.bits / 4, q.bits / 4);
  }

  lemma {:induction false} CoversNibbles(p: Prefix, q: Prefix, v: nat, w: nat, n: nat, k: nat)
    requires ValidPrefix(p) && ValidPrefix(q) && p.addr.V6? && q.addr.V6? && p.bits == 4 * n && q.bits == 4 * k
    requires v == Masked(p).addr.value && w == Masked(q).addr.value
    ensures Under(Labels6(w, k) + ROOT6, Labels6(v, n) + ROOT6) <==> Covers(p, q)
  {
    MaskedBits(p, 128);
    MaskedBits(q, 128);
    Zones6(v, n, w, k);
    CoversMasked(p, q);
  }

  lemma {:induction false} Zones6(v: nat, n: nat, w: nat, k: nat)
    requires n <= 32 && k <= 32 && Shr(v, 128) == 0 && Shr(w, 128) == 0
    ensures Under(Labels6(w, k) + ROOT6, Labels6(v, n) + ROOT6)
            <==> n <= k && Shr(v, 128 - 4 * n) == Shr(w, 128 - 4 * n)
  {
    Under6(v, n, w, k);
    LeadingNibbles(v, w, n);
  }

  /** The zone name of an aligned prefix, by family. */
  lemma {:induction false} ApexIs(p: Prefix)
    requires Aligned(p)
    ensures p.addr.V4? ==> p.bits % 8 == 0 && ZoneOf(p).apex == Labels4(Masked(p).addr.value, p.bits / 8) + ROOT4
    ensures p.addr.V6? ==> p.bits % 4 == 0 && ZoneOf(p).apex == Labels6(Masked(p).addr.value, p.bits / 4) + ROOT6
  {
    ZoneKinds(p);
    MappedIff(p);
  }

  /** Contains on zone names is containment of prefixes, in both directions. */
  lemma {:induction false} ContainsIffCovers(p: Prefix, q: Prefix)
    requires Aligned(p) && Aligned(q)
    ensures Under(ZoneOf(q).apex, ZoneOf(p).apex) <==> Covers(p, q)
  {
    ApexIs(p);
    ApexIs(q);
    var v, w := Masked(p).addr.value, Masked(q).addr.value;
    if p.addr.V4? {
      if q.addr.V4? { Covers4(p, q, v, w); }
      else { FamiliesApart(Labels6(w, q.bits / 4), Labels4(v, p.bits / 8)); }
    } else {
      if q.addr.V6? { Covers6(p, q, v, w); }
      else { FamiliesApart(Labels4(w, q.bits / 8), Labels6(v, p.bits / 4)); }
    }
  }

  /** Distinct prefixes have distinct zones. */
  lemma {:induction false} ZoneInjective(p: Prefix, q: Prefix)
    requires Aligned(p) && Aligned(q) && ZoneOf(p) == ZoneOf(q)
    ensures Masked(p) == Masked(q)
  {
    ContainsIffCovers(p, q);
    ContainsIffCovers(q, p);
  }

  function ZonesOf(prefixes: set<Prefix>): (zones: set<Name>) {
    set p | p in prefixes && ZoneOf(p).Zone? :: ZoneOf(p).apex
  }

  /** The name an address is looked up under, IPv4-mapped ones included. */
  function ReverseName(a: Addr): (n: Name) {
    if a.V4? then Labels4(a.value, 4) + ROOT4 else Labels6(a.value, 32) + ROOT6
  }

  function Host(a: Addr): (p: Prefix) { Prefix(a, Width(a)) }

  lemma {:induction false} NameCovered(p: Prefix, a: Addr)
    requires Aligned(p) && ValidPrefix(Host(a))
    ensures Under(ReverseName(a), ZoneOf(p).apex) <==> Covers(p, Host(a))
  {
    if p.addr.V4? { NameCovered4(p, a); } else { NameCovered6(p, a); }
  }

  lemma {:induction false} HostValue(a: Addr)
    ensures Masked(Host(a)).addr.value == a.value
  {
  }

  lemma {:induction false} NameCovered4(p: Prefix, a: Addr)
    requires Aligned(p) && p.addr.V4? && ValidPrefix(Host(a))
    ensures Under(ReverseName(a), ZoneOf(p).apex) <==> Covers(p, Host(a))
  {
    ApexIs(p);
    HostValue(a);
    var v, n := Masked(p).addr.value, p.bits / 8;
    if a.V4? { CoversOctets(p, Host(a), v, a.value, n, 4); }
    else { FamiliesApart(Labels6(a.value, 32), Labels4(v, n)); }
  }

  lemma {:induction false} NameCovered6(p: Prefix, a: Addr)
    requires Aligned(p) && p.addr.V6? && ValidPrefix(Host(a))
    ensures Under(ReverseName(a), ZoneOf(p).apex) <==> Covers(p, Host(a))
  {
    ApexIs(p);
    HostValue(a);
    var v, n := Masked(p).addr.value, p.bits / 4;
    if a.V6? { CoversNibbles(p, Host(a), v, a.value, n, 32); }
    else { FamiliesApart(Labels4(a.value, 4), Labels6(v, n)); }
  }

  /** Reverse lookup is longest-prefix match: over the zones derived from any set of prefixes, the zone
      found for any address is that of the most specific aligned prefix covering it, and none is found
      exactly when no aligned prefix covers it. */
  lemma {:induction false} LongestPrefixMatch(prefixes: set<Prefix>, a: Addr)
    requires (forall p :: p in prefixes ==> ValidPrefix(p)) && ValidPrefix(Host(a))
    ensures var found := Longest(ReverseName(a), ZonesOf(prefixes));
            && (found.None? <==> forall p :: p in prefixes && Aligned(p) ==> !Covers(p, Host(a)))
            && (found.Some? ==>
                  exists p :: && p in prefixes && ZoneOf(p) == Zone(found.value) && Covers(p, Host(a))
                              && forall q :: q in prefixes && Aligned(q) && Covers(q, Host(a)) ==> q.bits <= p.bits)
  {
    var zones := ZonesOf(prefixes);
    var name := ReverseName(a);
    LongestIs(name, zones);
    forall p | p in prefixes && Aligned(p)
      ensures ZoneOf(p).apex in zones && (Under(name, ZoneOf(p).apex) <==> Covers(p, Host(a)))
    {
      NameCovered(p, a);
    }
    if Longest(name, zones).Some? {
      var best := Longest(name, zones).value;
      var p :| p in prefixes && ZoneOf(p) == Zone(best);
      forall q | q in prefixes && Aligned(q) && Covers(q, Host(a)) ensures q.bits <= p.bits {
        ContainsIffCovers(q, p);
      }
    }
  }

  // ---- deriving the zones of a list of prefixes ----

  /** The text zones are sorted by. */
  function Fqdn(n: Name): (t: string) { Text(n) + "." }

  lemma {:induction false} MaskedZone(p: Prefix)
    ensures Masked(Masked(p)) == Masked(p) && ZoneOf(Masked(p)) == ZoneOf(p)
  {
    var host := if p.bits <= Width(p.addr) then Width(p.addr) - p.bits else 0;
    ShrShl(Shr(p.addr.value, host), host);
  }

  /** The zones derived are those of the prefixes, each once and in order of their text. A prefix that the code
      cannot handle makes it panic, which is `None`. */
  method Derive(prefixes: seq<Prefix>) returns (r: Option<(seq<Name>, seq<Prefix>)>)
    ensures r.None? <==> exists p :: p in prefixes && ZoneOf(p).Fault?
    ensures r.Some? ==>
      var (zones, unaligned) := r.value;
      && (forall z :: z in zones <==> z in ZonesOf(set p | p in prefixes))
      && (forall i, j :: 0 <= i < j < |zones| ==> zones[i] != zones[j])
      && InOrder(Fqdn, zones)
      && (forall u :: u in unaligned <==> exists p :: p in prefixes && Masked(p) == u && ZoneOf(p).Unaligned?)
  {
    var zones, unaligned := [], [];
    for i := 0 to |prefixes|
      invariant forall p :: p in prefixes[..i] ==> !ZoneOf(p).Fault?
      invariant forall z :: z in zones <==> exists p :: p in prefixes[..i] && ZoneOf(p) == Zone(z)
      invariant forall a, b :: 0 <= a < b < |zones| ==> zones[a] != zones[b]
      invariant forall u :: u in unaligned <==>
        exists p :: p in prefixes[..i] && Masked(p) == u && ZoneOf(p).Unaligned?
    {
      assert prefixes[..i+1] == prefixes[..i] + [prefixes[i]];
      MaskedZone(prefixes[i]);
      var p := Masked(prefixes[i]);
      var z := ZoneFor(p);
      if z.Fault? { return None; }
      if z.Unaligned? {
        unaligned := unaligned + [p];
      } else if z.apex !in zones {
        zones := zones + [z.apex];
      }
    }
    assert prefixes[..|prefixes|] == prefixes;
    var sorted := Sorted(zones, prefixes);
    r := Some((sorted, unaligned));
  }

  method Sorted(zones: seq<Name>, ghost prefixes: seq<Prefix>) returns (sorted: seq<Name>)
    requires forall i, j :: 0 <= i < j < |zones| ==> zones[i] != zones[j]
    requires forall z :: z in zones <==> exists p :: p in prefixes && ZoneOf(p) == Zone(z)
    ensures forall z :: z in sorted <==> z in ZonesOf(set p | p in prefixes)
    ensures forall i, j :: 0 <= i < j < |sorted| ==> sorted[i] != sorted[j]
    ensures InOrder(Fqdn, sorted)
  {
    sorted := SortBy(Fqdn, zones);
    SortInOrder(Fqdn, zones);
    SortKeepsDistinct(zones, sorted);
    assert forall z :: z in sorted <==> z in zones by {
      assert forall z :: z in sorted <==> z in multiset(sorted);
      assert forall z :: z in zones <==> z in multiset(zones);
    }
  }

  /** Reverse lookup among derived zones: what Derive makes of a list of prefixes finds, for any address, the
      most specific aligned prefix covering it. */
  lemma {:induction false} DerivedMatch(prefixes: seq<Prefix>, zones: seq<Name>, a: Addr)
    requires (forall p :: p in prefixes ==> ValidPrefix(p)) && ValidPrefix(Host(a))
    requires forall z :: z in zones <==> z in ZonesOf(set p | p in prefixes)
    ensures var found := Longest(ReverseName(a), set z | z in zones);
      && (found.None? <==> forall p :: p in prefixes && Aligned(p) ==> !Covers(p, Host(a)))
      && (found.Some? ==>
            exists p :: && p in prefixes && ZoneOf(p) == Zone(found.value) && Covers(p, Host(a))
                        && forall q :: q in prefixes && Aligned(q) && Covers(q, Host(a)) ==> q.bits <= p.bits)
  {
    var all := set p | p in prefixes;
    assert (set z | z in zones) == ZonesOf(all);
    LongestPrefixMatch(all, a);
    var found := Longest(ReverseName(a), ZonesOf(all));
    if found.None? {
      forall p | p in prefixes && Aligned(p) ensures !Covers(p, Host(a)) { assert p in all; }
    } else {
      var p :| && p in all && ZoneOf(p) == Zone(found.value) && Covers(p, Host(a))
               && forall q :: q in all && Aligned(q) && Covers(q, Host(a)) ==> q.bits <= p.bits;
      forall q | q in prefixes && Aligned(q) && Covers(q, Host(a)) ensures q.bits <= p.bits { assert q in all; }
    }
  }

  lemma {:induction false} SortKeepsDistinct(s: seq<Name>, t: seq<Name>)
    requires multiset(s) == multiset(t) && forall i, j :: 0 <= i < j < |s| ==> s[i] != s[j]
    ensures forall i, j :: 0 <= i < j < |t| ==> t[i] != t[j]
  {
    forall i, j | 0 <= i < j < |t| ensures t[i] != t[j] {
      if t[i] == t[j] {
        assert t == t[..i] + [t[i]] + t[i+1..j] + [t[j]] + t[j+1..];
        assert multiset(t)[t[i]] >= 2;
        CountOnce(s, t[i]);
      }
    }
  }

  lemma {:induction false} CountOnce(s: seq<Name>, x: Name)
    requires forall i, j :: 0 <= i < j < |s| ==> s[i] != s[j]
    ensures multiset(s)[x] <= 1
  {
    if s != [] {
      assert s == [s[0]] + s[1..];
      CountOnce(s[1..], x);
      if s[0] == x { assert x !in s[1..]; assert multiset(s[1..])[x] == 0; }
    }
  }
}
