/**
 Role permission masks. The columns are 64-bit integers; the model keeps the set
 of bits that are on. `Represents` relates the two, and the lemmas show that `|`,
 `&` and `has` on the integers are union, intersection and membership of the sets.
 */
module Permissions {

  /** One bit of a mask, named by the mask that has only this bit on. */
  datatype Bit = Bit(value: bv64)

  type Mask = set<Bit>

  const ADMIN := Bit(0x1)
  const MANAGE_ROLES := Bit(0x2)
  const MANAGE_CHANNELS := Bit(0x4)
  const KICK := Bit(0x8)
  const BAN := Bit(0x10)
  const MANAGE_VISIBILITY := Bit(0x20)
  const MENTION_EVERYONE := Bit(0x40)
  const MENTION_ROLES := Bit(0x80)
  const MANAGE_NICKNAMES := Bit(0x100)
  const TIMEOUT_MEMBERS := Bit(0x200)
  const MANAGE_MESSAGES := Bit(0x400)
  const PIN_MESSAGES := Bit(0x800)
  const MANAGE_INVITES := Bit(0x1000)

  const KNOWN: Mask := {
    ADMIN, MANAGE_ROLES, MANAGE_CHANNELS, KICK, BAN, MANAGE_VISIBILITY, MENTION_EVERYONE,
    MENTION_ROLES, MANAGE_NICKNAMES, TIMEOUT_MEMBERS, MANAGE_MESSAGES, PIN_MESSAGES, MANAGE_INVITES
  }

  /** The one bit of the separate per-channel namespace. */
  const VIEW_CHANNEL := Bit(0x1)

  // ---- the integers behind the sets ----

  predicate IsSingle(b: bv64) {
    b != 0 && b & (b - 1) == 0
  }

  /** The source's `has`. */
  predicate Has(raw: bv64, required: bv64) {
    raw & required == required
  }

  predicate RepresentsAt(m: Mask, raw: bv64, b: bv64) {
    Bit(b) in m <==> IsSingle(b) && raw & b != 0
  }

  ghost predicate Represents(m: Mask, raw: bv64) {
    forall b: bv64 :: RepresentsAt(m, raw, b)
  }

  lemma OrRepresentsUnion(m: Mask, x: bv64, n: Mask, y: bv64)
    requires Represents(m, x) && Represents(n, y)
    ensures Represents(m + n, x | y)
  {
    hide RepresentsAt;
    var union, raw := m + n, x | y;
    forall b: bv64
      ensures RepresentsAt(union, raw, b)
    {
      OrAt(m, x, n, y, b);
    }
  }

  lemma OrAt(m: Mask, x: bv64, n: Mask, y: bv64, b: bv64)
    requires RepresentsAt(m, x, b) && RepresentsAt(n, y, b)
    ensures RepresentsAt(m + n, x | y, b)
  {
    OrMeets(x, y, b);
  }

  lemma OrMeets(x: bv64, y: bv64, b: bv64)
    ensures (x | y) & b != 0 <==> x & b != 0 || y & b != 0
  {
    assert (x | y) & b == (x & b) | (y & b);
  }

  lemma AndMeets(x: bv64, y: bv64, b: bv64)
    requires IsSingle(b)
    ensures (x & y) & b != 0 <==> x & b != 0 && y & b != 0
  {
  }

  lemma AndRepresentsIntersection(m: Mask, x: bv64, n: Mask, y: bv64)
    requires Represents(m, x) && Represents(n, y)
    ensures Represents(m * n, x & y)
  {
    hide RepresentsAt;
    var common, raw := m * n, x & y;
    forall b: bv64
      ensures RepresentsAt(common, raw, b)
    {
      AndAt(m, x, n, y, b);
    }
  }

  lemma AndAt(m: Mask, x: bv64, n: Mask, y: bv64, b: bv64)
    requires RepresentsAt(m, x, b) && RepresentsAt(n, y, b)
    ensures RepresentsAt(m * n, x & y, b)
  {
    if IsSingle(b) {
      AndMeets(x, y, b);
    }
  }

  lemma HasIsMembership(m: Mask, raw: bv64, b: bv64)
    requires Represents(m, raw) && IsSingle(b)
    ensures Has(raw, b) <==> Bit(b) in m
  {
    hide Represents, IsSingle;
    assert RepresentsAt(m, raw, b) by {
      RepresentedAt(m, raw, b);
    }
    SingleMeets(raw, b);
  }

  lemma RepresentedAt(m: Mask, raw: bv64, b: bv64)
    requires Represents(m, raw)
    ensures RepresentsAt(m, raw, b)
  {
    hide RepresentsAt;
  }

  /** With one bit asked for, having it all is having any of it. */
  lemma SingleMeets(raw: bv64, b: bv64)
    requires IsSingle(b)
    ensures raw & b == b <==> raw & b != 0
  {
  }

  /** The thirteen single bits of 0x1fff. */
  lemma KnownBits(b: bv64)
    ensures (IsSingle(b) && 0x1fff & b != 0) <==>
            (|| b == 0x1 || b == 0x2 || b == 0x4 || b == 0x8 || b == 0x10 || b == 0x20 || b == 0x40 || b == 0x80
             || b == 0x100 || b == 0x200 || b == 0x400 || b == 0x800 || b == 0x1000)
  {
  }

  lemma KnownRepresents()
    ensures Represents(KNOWN, 0x1fff)
  {
    forall b: bv64
      ensures RepresentsAt(KNOWN, 0x1fff, b)
    {
      KnownBits(b);
      hide IsSingle;
    }
  }

  /** The fold of `member_context` over the fetched masks. */
  function OrAll(masks: seq<bv64>): bv64 {
    if masks == [] then 0 else OrAll(masks[..|masks| - 1]) | masks[|masks| - 1]
  }

  lemma NoBitsRepresentZero()
    ensures Represents({}, 0)
  {
    var none: Mask := {};
    forall b: bv64
      ensures RepresentsAt(none, 0, b)
    {
    }
  }
}
