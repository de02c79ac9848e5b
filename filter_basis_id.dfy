/**
 * FilterBasisId: the composite key (sucheId, fflId, fltId) of a filter
 * row in the reverse-engineered Grundschutz database, with Java's
 * `equals`/`hashCode` contract and 32-bit `int` arithmetic.
 */
module Reveng {
  import opened Wrappers

  /** 2^32, the modulus of Java `int` arithmetic. */
  const Modulus: int := 0x1_0000_0000

  /** A Java `int`: 32-bit two's complement. */
  type int32 = x: int | -0x8000_0000 <= x < 0x8000_0000

  /** The `int` that an exact result wraps around to: the one representative of its class modulo 2^32. */
  function Wrap(x: int): (r: int32)
    ensures (r - x) % Modulus == 0
  {
    var m := x % Modulus;
    if m < 0x8000_0000 then m else m - Modulus
  }

  /** Java `int` multiplication. */
  function Mul32(a: int32, b: int32): int32 {
    Wrap(a * b)
  }

  /** Java `int` addition. */
  function Add32(a: int32, b: int32): int32 {
    Wrap(a + b)
  }

  /** A multiple of 2^32 leaves no remainder. */
  lemma ModOfMultiple(k: int)
    ensures (k * Modulus) % Modulus == 0
  {
  }

  /** Numbers congruent modulo 2^32 wrap to the same `int`. */
  lemma WrapCongruent(x: int, y: int)
    requires (x - y) % Modulus == 0
    ensures Wrap(x) == Wrap(y)
  {
    assert x % Modulus == y % Modulus;
  }

  /** Wrapping the left operand of a sum first changes nothing. */
  lemma WrapAddLeft(x: int, y: int)
    ensures Wrap(Wrap(x) + y) == Wrap(x + y)
  {
    WrapCongruent(Wrap(x) + y, x + y);
  }

  /** Multiplying congruent numbers by 37 keeps them congruent. */
  lemma CongruentMul37(x: int, y: int)
    requires (x - y) % Modulus == 0
    ensures (37 * x - 37 * y) % Modulus == 0
  {
    var q := (x - y) / Modulus;
    assert x - y == q * Modulus;
    assert 37 * x - 37 * y == (37 * q) * Modulus;
    ModOfMultiple(37 * q);
  }

  /** Wrapping the operand of `37 * _` first changes nothing. */
  lemma WrapMul37(a: int)
    ensures Wrap(37 * Wrap(a)) == Wrap(37 * a)
  {
    CongruentMul37(Wrap(a), a);
    WrapCongruent(37 * Wrap(a), 37 * a);
  }

  /** One step `result = 37 * result + b` of hashCode on a wrapped `result`: only the final wrap matters. */
  lemma WrapStep(a: int, b: int32)
    ensures Add32(Mul32(37, Wrap(a)), b) == Wrap(37 * a + b)
  {
    WrapMul37(a);
    WrapAddLeft(37 * Wrap(a), b);
    WrapAddLeft(37 * a, b);
  }

  /** The `sucheId` test of `equals`: the same reference (which covers both null) or two non-null strings that are equal. */
  predicate SameSucheId(a: Option<string>, b: Option<string>) {
    (a.None? && b.None?) || (a.Some? && b.Some? && a.value == b.value)
  }

  class FilterBasisId {
    var sucheId: Option<string>
    var fflId: int32
    var fltId: int32

    /** The no-argument constructor: Java's field defaults. */
    constructor Empty()
      ensures sucheId == None && fflId == 0 && fltId == 0
    {
      sucheId := None;
      fflId := 0;
      fltId := 0;
    }

    /** Stores its arguments unchanged. */
    constructor (sucheId: Option<string>, fflId: int32, fltId: int32)
      ensures this.sucheId == sucheId && this.fflId == fflId && this.fltId == fltId
    {
      this.sucheId := sucheId;
      this.fflId := fflId;
      this.fltId := fltId;
    }

    function GetSucheId(): Option<string>
      reads this
    {
      sucheId
    }

    function GetFflId(): int32
      reads this
    {
      fflId
    }

    function GetFltId(): int32
      reads this
    {
      fltId
    }

    /** Changes `sucheId` only. */
    method SetSucheId(sucheId: Option<string>)
      modifies this
      ensures GetSucheId() == sucheId && GetFflId() == old(GetFflId()) && GetFltId() == old(GetFltId())
    {
      this.sucheId := sucheId;
    }

    /** Changes `fflId` only. */
    method SetFflId(fflId: int32)
      modifies this
      ensures GetFflId() == fflId && GetSucheId() == old(GetSucheId()) && GetFltId() == old(GetFltId())
    {
      this.fflId := fflId;
    }

    /** Changes `fltId` only. */
    method SetFltId(fltId: int32)
      modifies this
      ensures GetFltId() == fltId && GetSucheId() == old(GetSucheId()) && GetFflId() == old(GetFflId())
    {
      this.fltId := fltId;
    }

    /**
     * `equals(Object)`: true for this very object; false for null and for
     * an object of another class; otherwise true exactly when the three
     * fields agree.
     */
    function Equals(other: object?): (r: bool)
      reads this, other
      ensures this == other ==> r
      ensures other == null ==> !r
      ensures !(other is FilterBasisId) ==> !r
    {
      if this == other then true
      else if other == null then false
      else if !(other is FilterBasisId) then false
      else
        var castOther := other as FilterBasisId;
        && SameSucheId(GetSucheId(), castOther.GetSucheId())
        && GetFflId() == castOther.GetFflId()
        && GetFltId() == castOther.GetFltId()
    }

    /**
     * `hashCode()`, step by step on a Java `int`; `stringHash` stands for
     * `String.hashCode`, whose value this model does not fix. The result is
     * 37 * (37 * (37 * 17 + h) + fflId) + fltId wrapped to 32 bits, with
     * h = 0 for a null sucheId: wrapping after every step loses nothing.
     */
    function HashCode(stringHash: string -> int32): (r: int32)
      reads this
      ensures var h := if sucheId.None? then 0 else stringHash(sucheId.value);
              r == Wrap(37 * (37 * (37 * 17 + h) + fflId) + fltId)
    {
      var h: int32 := if GetSucheId().None? then 0 else stringHash(GetSucheId().value);
      var result: int32 := 17;
      var result := Add32(Mul32(37, result), h);
      var result := Add32(Mul32(37, result), GetFflId());
      WrapStep(17, h);
      WrapStep(37 * 17 + h, fflId);
      WrapStep(37 * (37 * 17 + h) + fflId, fltId);
      Add32(Mul32(37, result), GetFltId())
    }
  }

  /** Two ids are equal exactly when their sucheIds are both null or equal strings and both ints agree. */
  lemma EqualsIff(x: FilterBasisId, y: FilterBasisId)
    ensures x.Equals(y) <==> (x.sucheId == y.sucheId && x.fflId == y.fflId && x.fltId == y.fltId)
  {
    assert SameSucheId(x.sucheId, y.sucheId) <==> x.sucheId == y.sucheId;
  }

  /** `equals` is reflexive. */
  lemma EqualsReflexive(x: FilterBasisId)
    ensures x.Equals(x)
  {
  }

  /** `equals` is symmetric. */
  lemma EqualsSymmetric(x: FilterBasisId, y: FilterBasisId)
    ensures x.Equals(y) == y.Equals(x)
  {
    EqualsIff(x, y);
    EqualsIff(y, x);
  }

  /** `equals` is transitive. */
  lemma EqualsTransitive(x: FilterBasisId, y: FilterBasisId, z: FilterBasisId)
    requires x.Equals(y) && y.Equals(z)
    ensures x.Equals(z)
  {
    EqualsIff(x, y);
    EqualsIff(y, z);
    EqualsIff(x, z);
  }

  /** Equal ids have equal hash codes, whatever `String.hashCode` is. */
  lemma HashConsistent(x: FilterBasisId, y: FilterBasisId, stringHash: string -> int32)
    requires x.Equals(y)
    ensures x.HashCode(stringHash) == y.HashCode(stringHash)
  {
    EqualsIff(x, y);
  }
}
