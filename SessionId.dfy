/**
 * A session identifier that wraps a UUID: its id is the UUID's canonical
 * string form, and two identifiers are equal exactly when their UUIDs are.
 */
module SessionId {

  /** One hexadecimal digit. */
  newtype nibble = x: int | 0 <= x < 16

  /**
   * A UUID as its 128 bits in 32 hexadecimal digits, most significant first:
   * the first 16 are the most significant long, the last 16 the least.
   */
  type UuidDigits = s: seq<nibble> | |s| == 32 witness seq(32, i => 0 as nibble)

  datatype Uuid = Uuid(digits: UuidDigits)

  /** A digit in lower-case hexadecimal. */
  function HexChar(d: nibble): (c: char)
    ensures '0' <= c <= '9' || 'a' <= c <= 'f'
  {
    if d < 10 then ('0' as int + d as int) as char else ('a' as int + d as int - 10) as char
  }

  lemma HexCharInjective(a: nibble, b: nibble)
    requires HexChar(a) == HexChar(b)
    ensures a == b
  {
  }

  function Hex(s: seq<nibble>): (r: string)
    ensures |r| == |s| && forall i :: 0 <= i < |s| ==> r[i] == HexChar(s[i])
  {
    seq(|s|, i requires 0 <= i < |s| => HexChar(s[i]))
  }

  /** The canonical form of a UUID: groups of 8, 4, 4, 4 and 12 digits joined by '-'. */
  function GetId(u: Uuid): (id: string)
    ensures |id| == 36 && id[8] == '-' && id[13] == '-' && id[18] == '-' && id[23] == '-'
  {
    var d := u.digits;
    Hex(d[..8]) + "-" + Hex(d[8..12]) + "-" + Hex(d[12..16]) + "-" + Hex(d[16..20]) + "-" + Hex(d[20..])
  }

  /** Where digit `i` of a UUID lands in its canonical form. */
  function Position(i: nat): nat {
    i + (if i < 8 then 0 else if i < 12 then 1 else if i < 16 then 2 else if i < 20 then 3 else 4)
  }

  lemma GetIdDigit(u: Uuid, i: nat)
    requires i < 32
    ensures Position(i) < 36 && GetId(u)[Position(i)] == HexChar(u.digits[i])
  {
    var d := u.digits;
    var g1, g2, g3, g4, g5 := Hex(d[..8]), Hex(d[8..12]), Hex(d[12..16]), Hex(d[16..20]), Hex(d[20..]);
    assert GetId(u) == g1 + "-" + g2 + "-" + g3 + "-" + g4 + "-" + g5;
    if i < 8 {
      assert GetId(u)[i] == g1[i];
    } else if i < 12 {
      assert GetId(u)[i + 1] == g2[i - 8];
    } else if i < 16 {
      assert GetId(u)[i + 2] == g3[i - 12];
    } else if i < 20 {
      assert GetId(u)[i + 3] == g4[i - 16];
    } else {
      assert GetId(u)[i + 4] == g5[i - 20];
    }
  }

  /** Distinct UUIDs have distinct ids. */
  lemma {:induction false} GetIdInjective(u1: Uuid, u2: Uuid)
    ensures GetId(u1) == GetId(u2) <==> u1 == u2
  {
    if GetId(u1) == GetId(u2) {
      forall i | 0 <= i < 32
        ensures u1.digits[i] == u2.digits[i]
      {
        GetIdDigit(u1, i);
        GetIdDigit(u2, i);
        HexCharInjective(u1.digits[i], u2.digits[i]);
      }
      assert u1.digits == u2.digits;
    }
  }

  const CANONICAL_NAME := "org.jvoicexml.UuidSessionIdentifier"

  /** The canonical class name, then the id in brackets. */
  function ToString(u: Uuid): (s: string)
    ensures |s| == |CANONICAL_NAME| + 38
    ensures s[..|CANONICAL_NAME|] == CANONICAL_NAME && s[|CANONICAL_NAME|] == '[' && s[|s| - 1] == ']'
  {
    CANONICAL_NAME + "[" + GetId(u) + "]"
  }

  /** The string form names the identifier: it tells identifiers apart exactly as equality does. */
  lemma {:induction false} ToStringInjective(u1: Uuid, u2: Uuid)
    ensures ToString(u1) == ToString(u2) <==> u1 == u2
  {
    var n := |CANONICAL_NAME| + 1;
    assert ToString(u1)[n..n + 36] == GetId(u1);
    assert ToString(u2)[n..n + 36] == GetId(u2);
    GetIdInjective(u1, u2);
  }

  /** The 32-bit word made of up to eight digits, most significant first. */
  function Word(s: seq<nibble>): bv32
    requires |s| <= 8
  {
    if s == [] then 0 else (Word(s[..|s| - 1]) << 4) | (s[|s| - 1] as bv32)
  }

  /** The UUID's own hash: the xor of the two halves of the xor of its two longs. */
  function UuidHash(u: Uuid): bv32 {
    var d := u.digits;
    Word(d[..8]) ^ Word(d[8..16]) ^ Word(d[16..24]) ^ Word(d[24..])
  }

  /** A Java `long` made of its high and its low 32-bit word. */
  function Long(hi: bv32, lo: bv32): bv64 {
    ((hi as bv64) << 32) | (lo as bv64)
  }

  /** `UUID.hashCode` on the two longs: the xor of the high and low words of their xor. */
  function JavaUuidHash(msb: bv64, lsb: bv64): bv32 {
    var hilo := msb ^ lsb;
    ((hilo >> 32) as bv32) ^ ((hilo & 0xFFFF_FFFF) as bv32)
  }

  /** The identifier's hash: that of a one-element array holding the UUID, in 32-bit arithmetic. */
  function HashCode(u: Uuid): (h: bv32)
    ensures var d := u.digits;
            h == 31 + JavaUuidHash(Long(Word(d[..8]), Word(d[8..16])), Long(Word(d[16..24]), Word(d[24..])))
  {
    31 + UuidHash(u)
  }

  /** A Java reference an identifier can be compared with. */
  datatype JObject =
    | Null
    | Identifier(ref: nat, uuid: Uuid)
    | Other(ref: nat)   // an object of any other class, a subclass included

  predicate SameRef(a: JObject, b: JObject) {
    !a.Null? && !b.Null? && a.ref == b.ref
  }

  /** Two objects of one heap: a reference denotes one object. */
  predicate Consistent(a: JObject, b: JObject) {
    SameRef(a, b) ==> a == b
  }

  /**
   * `self.equals(obj)`: true for the same reference, false for null and for
   * another class, otherwise whether the UUIDs are equal.
   */
  function Equals(self: JObject, obj: JObject): (r: bool)
    requires self.Identifier?
    ensures SameRef(self, obj) ==> r
    ensures obj.Identifier? && obj.uuid == self.uuid ==> r
    ensures r ==> obj.Identifier? || SameRef(self, obj)
  {
    if SameRef(self, obj) then true
    else if obj.Null? then false
    else if !obj.Identifier? then false
    else self.uuid == obj.uuid
  }

  /** On a consistent heap, equality is equality of UUIDs, and nothing else. */
  lemma EqualsMeaning(self: JObject, obj: JObject)
    requires self.Identifier? && Consistent(self, obj)
    ensures Equals(self, obj) <==> obj.Identifier? && obj.uuid == self.uuid
  {
  }

  lemma EqualsReflexive(self: JObject)
    requires self.Identifier?
    ensures Equals(self, self) && !Equals(self, Null)
  {
  }

  lemma EqualsSymmetric(a: JObject, b: JObject)
    requires a.Identifier? && b.Identifier? && Consistent(a, b)
    ensures Equals(a, b) == Equals(b, a)
  {
    EqualsMeaning(a, b);
    EqualsMeaning(b, a);
  }

  lemma EqualsTransitive(a: JObject, b: JObject, c: JObject)
    requires a.Identifier? && b.Identifier? && c.Identifier?
    requires Consistent(a, b) && Consistent(b, c) && Consistent(a, c)
    requires Equals(a, b) && Equals(b, c)
    ensures Equals(a, c)
  {
    EqualsMeaning(a, b);
    EqualsMeaning(b, c);
    EqualsMeaning(a, c);
  }

  /** Equal identifiers hash alike, and alike in their string forms. */
  lemma EqualsAgreesWithHashAndString(a: JObject, b: JObject)
    requires a.Identifier? && b.Identifier? && Consistent(a, b) && Equals(a, b)
    ensures HashCode(a.uuid) == HashCode(b.uuid) && ToString(a.uuid) == ToString(b.uuid)
  {
    EqualsMeaning(a, b);
  }

  /** The hash of the UUID with every digit 0 except the last, which is 1: Objects.hash adds 31. */
  lemma HashOfOne()
    ensures HashCode(Uuid(seq(32, i => if i == 31 then 1 as nibble else 0 as nibble))) == 32
  {
    var d := seq(32, i => if i == 31 then 1 as nibble else 0 as nibble);
    assert d[..8] == seq(8, i => 0 as nibble);
    assert d[8..16] == seq(8, i => 0 as nibble);
    assert d[16..24] == seq(8, i => 0 as nibble);
    assert d[24..] == seq(7, i => 0 as nibble) + [1 as nibble];
    ZeroWord(8);
    ZeroWord(7);
    assert (d[24..])[..7] == seq(7, i => 0 as nibble);
  }

  lemma {:induction false} ZeroWord(n: nat)
    requires n <= 8
    ensures Word(seq(n, i => 0 as nibble)) == 0
  {
    if n > 0 {
      assert seq(n, i => 0 as nibble)[..n - 1] == seq(n - 1, i => 0 as nibble);
      ZeroWord(n - 1);
    }
  }
}
