/** Device access permissions: cgroup v1 strings such as "rw", used as sets.

    The source keeps permissions as strings and converts to a bit set for every
    set operation. `Has` is the meaning of such a string; every operation is
    specified by what its result `Has`. */
module Permissions {

  type Perms = string

  /** The three bits of the source's unsigned set: deviceRead, deviceWrite, deviceMknod. */
  datatype Bits = Bits(read: bool, write: bool, mknod: bool) {
    function Or(o: Bits): Bits {
      Bits(read || o.read, write || o.write, mknod || o.mknod)
    }

    function And(o: Bits): Bits {
      Bits(read && o.read, write && o.write, mknod && o.mknod)
    }

    function AndNot(o: Bits): Bits {
      Bits(read && !o.read, write && !o.write, mknod && !o.mknod)
    }
  }

  /** Access `c` is one of the three modes and is listed in `p`. */
  predicate Has(p: Perms, c: char) {
    (c == 'r' || c == 'w' || c == 'm') && c in p
  }

  /** The bit set that `ToSet` accumulates. */
  function BitsOf(p: Perms): Bits {
    Bits('r' in p, 'w' in p, 'm' in p)
  }

  method ToSet(p: Perms) returns (bits: Bits)
    ensures bits == BitsOf(p)
  {
    bits := Bits(false, false, false);
    for i := 0 to |p|
      invariant bits == BitsOf(p[..i])
    {
      assert p[..i + 1] == p[..i] + [p[i]];
      match p[i]
      case 'r' => bits := bits.(read := true);
      case 'w' => bits := bits.(write := true);
      case 'm' => bits := bits.(mknod := true);
      case _ =>
    }
    assert p[..|p|] == p;
  }

  function FromSet(bits: Bits): (p: Perms)
    ensures BitsOf(p) == bits
    ensures p == "" <==> bits == Bits(false, false, false)
  {
    (if bits.read then "r" else "") + (if bits.write then "w" else "") + (if bits.mknod then "m" else "")
  }

  predicate IsEmpty(p: Perms) {
    p == ""
  }

  /** A canonical string: only known modes, each once, in the order r, w, m. */
  predicate IsValid(p: Perms) {
    p == FromSet(BitsOf(p))
  }

  function Union(p: Perms, o: Perms): (u: Perms)
    ensures IsValid(u)
    ensures forall c {:trigger Has(u, c)} :: Has(u, c) <==> Has(p, c) || Has(o, c)
  {
    FromSet(BitsOf(p).Or(BitsOf(o)))
  }

  function Difference(p: Perms, o: Perms): (d: Perms)
    ensures IsValid(d)
    ensures forall c {:trigger Has(d, c)} :: Has(d, c) <==> Has(p, c) && !Has(o, c)
  {
    FromSet(BitsOf(p).AndNot(BitsOf(o)))
  }

  function Intersection(p: Perms, o: Perms): (i: Perms)
    ensures IsValid(i)
    ensures forall c {:trigger Has(i, c)} :: Has(i, c) <==> Has(p, c) && Has(o, c)
  {
    FromSet(BitsOf(p).And(BitsOf(o)))
  }

  /** A canonical string is empty exactly when it grants nothing. */
  lemma EmptyMeansNothing(p: Perms)
    requires IsValid(p)
    ensures IsEmpty(p) <==> forall c :: !Has(p, c)
  {
    if forall c :: !Has(p, c) {
      assert !Has(p, 'r') && !Has(p, 'w') && !Has(p, 'm');
    }
  }

  /** Canonical strings that grant the same accesses are the same string. */
  lemma ValidIsExtensional(p: Perms, q: Perms)
    requires IsValid(p) && IsValid(q)
    requires forall c :: Has(p, c) <==> Has(q, c)
    ensures p == q
  {
    assert Has(p, 'r') <==> Has(q, 'r');
    assert Has(p, 'w') <==> Has(q, 'w');
    assert Has(p, 'm') <==> Has(q, 'm');
    assert BitsOf(p) == BitsOf(q);
  }
}
