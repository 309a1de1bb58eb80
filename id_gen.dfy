/**
 * `modality_probe/id_gen.rs`: probe ids are drawn by hashing a fresh random
 * UUID together with the probe's name, folding the first digest bytes into
 * a 32-bit value and reducing it below the end of the id range; a hash of
 * zero or one outside the range is retried with a new UUID, at most 65535
 * times. SHA3-256 and `Uuid::new_v4` are opaque here: the digest is a
 * function parameter and the successive UUIDs are a numbered stream.
 */
module ProbeIds {
  import opened Text

  const Two32: int := 0x1_0000_0000

  /** `NonZeroU32`. */
  type NonZeroU32 = x: int | 1 <= x < 0x1_0000_0000 witness 1

  /** A UUID's 16 bytes. */
  type Uuid = seq<u8>

  /** A SHA3-256 digest: 32 bytes. */
  type Digest = d: seq<u8> | |d| == 32 witness seq(32, _ => 0)

  /** `NonZeroIdRange`: both ends inclusive. */
  datatype IdRange = IdRange(start: NonZeroU32, end: NonZeroU32)

  /** `NonZeroIdRange::new`: refuses a start past the end. */
  function NewRange(start: NonZeroU32, end: NonZeroU32): (r: Option<IdRange>)
    ensures r.None? <==> start > end
    ensures r.Some? ==> r.value.start == start && r.value.end == end
  {
    if start > end then None else Some(IdRange(start, end))
  }

  /** `contains`: inclusive at both ends. */
  predicate Contains(r: IdRange, v: NonZeroU32) {
    v >= r.start && v <= r.end
  }

  // ---------------------------------------------------------------------------
  // `token_hash`

  /** `u16::from_be_bytes(bytes[0..2])`. */
  function Be16(d: Digest): int {
    d[0] as int * 0x100 + d[1] as int
  }

  /** `u32::from_be_bytes(bytes[0..4])`. */
  function Be32(d: Digest): u32 {
    d[0] as int * 0x100_0000 + d[1] as int * 0x1_0000 + d[2] as int * 0x100 + d[3] as int
  }

  /** `overflowing_mul(..).0` on `u32`. */
  function WrappingMul(a: u32, b: u32): u32 {
    (a * b) % Two32
  }

  /** `overflowing_add(..).0` on `u32`. */
  function WrappingAdd(a: u32, b: u32): u32 {
    (a + b) % Two32
  }

  /** `u32::from(be16).overflowing_mul(0xFFFF_FFFF).0.overflowing_add(be32).0`. */
  function Mix(d: Digest): u32 {
    WrappingAdd(WrappingMul(Be16(d), 0xFFFF_FFFF), Be32(d))
  }

  /** `id % inclusive_end`. */
  function Reduce(id: u32, r: IdRange): (h: u32)
    ensures h < r.end
  {
    id % r.end
  }

  /** The leading 16 bits are the top half of the leading 32 bits. */
  lemma Be16IsTop(d: Digest)
    ensures Be16(d) == Be32(d) / 0x1_0000
  {
    assert Be32(d) == Be16(d) * 0x1_0000 + (d[2] as int * 0x100 + d[3] as int);
  }

  /**
   * The wrapped mix is `(be16·0xFFFF_FFFF + be32) mod 2^32`, which is also
   * `(be32 − be16) mod 2^32`: multiplying by `2^32 − 1` wraps to negation.
   */
  lemma MixFormula(d: Digest)
    ensures Mix(d) == (Be16(d) * 0xFFFF_FFFF + Be32(d)) % Two32
    ensures Mix(d) == (Be32(d) - Be16(d)) % Two32
  {
    var a, b := Be16(d), Be32(d);
    var m := a * 0xFFFF_FFFF;
    ModSum(m, b);
    assert m == a * Two32 - a;
    ShiftMod(a, b - a);
  }

  lemma ModSum(x: int, y: int)
    ensures ((x % Two32) + y) % Two32 == (x + y) % Two32
  {
    var q := x / Two32;
    assert x == q * Two32 + x % Two32;
    ShiftMod(q, x % Two32 + y);
  }

  lemma ShiftMod(q: int, r: int)
    ensures (q * Two32 + r) % Two32 == r % Two32
  {
    var s := r / Two32;
    assert r == s * Two32 + r % Two32;
    assert q * Two32 + r == (q + s) * Two32 + r % Two32;
  }

  /** What `token_hash` yields for the digest of one UUID and the token. */
  function HashOf(r: IdRange, d: Digest): (h: u32)
    ensures h < r.end
  {
    Reduce(Mix(d), r)
  }

  /** A hash `hashed_id` keeps: non-zero and in range. */
  predicate Accepted(r: IdRange, h: u32) {
    h != 0 && Contains(r, h)
  }

  // ---------------------------------------------------------------------------
  // `hashed_id`

  /** The limit on hash attempts: `std::u16::MAX`. */
  const MaxTries: nat := 0xFFFF

  datatype Outcome = Found(id: NonZeroU32) | Panic

  /** The hash of attempt `i`: the digest of UUID number `i` of the stream and the token. */
  function Attempt(r: IdRange, newV4: nat -> Uuid, sha: (Uuid, string) -> Digest, token: string, i: nat): u32 {
    HashOf(r, sha(newV4(i), token))
  }

  /**
   * The outcome of `hashed_id` when the UUID in use is number `from` of the
   * stream and `tries` attempts are left.
   */
  function Search(r: IdRange, newV4: nat -> Uuid, sha: (Uuid, string) -> Digest,
                  token: string, from: nat, tries: nat): Outcome
    requires tries >= 1
    decreases tries
  {
    var h := Attempt(r, newV4, sha, token, from);
    if Accepted(r, h) then Found(h)
    else if tries - 1 == 0 then Panic
    else Search(r, newV4, sha, token, from + 1, tries - 1)
  }

  /** `IdGen`: the id range and the UUID in use, drawn from the stream `newV4`. */
  class IdGen {
    const idRange: IdRange
    /** The successive results of `Uuid::new_v4()`. */
    const newV4: nat -> Uuid
    /** SHA3-256 over the UUID's bytes followed by the token's bytes. */
    const sha: (Uuid, string) -> Digest
    /** How many UUIDs have been drawn after the first. */
    var drawn: nat
    var uuid: Uuid

    ghost predicate Valid()
      reads this
    {
      uuid == newV4(drawn)
    }

    /** `IdGen::new`: draws the first UUID. */
    constructor (idRange: IdRange, newV4: nat -> Uuid, sha: (Uuid, string) -> Digest)
      ensures this.idRange == idRange && this.newV4 == newV4 && this.sha == sha
      ensures drawn == 0 && Valid()
    {
      this.idRange := idRange;
      this.newV4 := newV4;
      this.sha := sha;
      drawn := 0;
      uuid := newV4(0);
    }

    /** `regenerate_uuid`: the next UUID of the stream. */
    method RegenerateUuid()
      requires Valid()
      modifies this
      ensures drawn == old(drawn) + 1 && Valid()
    {
      drawn := drawn + 1;
      uuid := newV4(drawn);
    }

    /** `token_hash`: always below the end of the range. */
    function TokenHash(token: string): (h: u32)
      reads this
      ensures h < idRange.end
      ensures h == HashOf(idRange, sha(uuid, token))
    {
      var d := sha(uuid, token);
      var be16 := Be16(d);
      var be32 := Be32(d);
      var id := WrappingAdd(WrappingMul(be16, 0xFFFF_FFFF), be32);
      id % idRange.end
    }

    /**
     * `hashed_id`: hash with the current UUID; keep a non-zero hash inside
     * the range, otherwise draw a new UUID and decrement the retry budget,
     * panicking when it reaches zero.
     */
    method HashedId(token: string) returns (r: Outcome)
      requires Valid()
      modifies this
      ensures Valid()
      ensures r == Search(idRange, newV4, sha, token, old(drawn), MaxTries)
      ensures r.Panic? ==> drawn == old(drawn) + MaxTries
    {
      var maxTries := MaxTries;
      ghost var from := drawn;
      while true
        invariant Valid()
        invariant 1 <= maxTries <= MaxTries && drawn == from + (MaxTries - maxTries)
        invariant Search(idRange, newV4, sha, token, from, MaxTries)
                  == Search(idRange, newV4, sha, token, drawn, maxTries)
        decreases maxTries
      {
        var hash := TokenHash(token);
        if hash != 0 {
          var nonZeroHash: NonZeroU32 := hash;
          if Contains(idRange, nonZeroHash) {
            return Found(nonZeroHash);
          }
        }
        RegenerateUuid();
        maxTries := if maxTries >= 1 then maxTries - 1 else 0;   // `saturating_sub(1)`
        if maxTries == 0 {
          return Panic;
        }
      }
    }
  }

  /**
   * A found id is the first accepted hash of the stream: every earlier
   * attempt was rejected, and it was found within the budget.
   */
  lemma {:induction false} SearchFound(r: IdRange, newV4: nat -> Uuid, sha: (Uuid, string) -> Digest,
                                       token: string, from: nat, tries: nat)
    requires tries >= 1
    requires Search(r, newV4, sha, token, from, tries).Found?
    ensures var v := Search(r, newV4, sha, token, from, tries).id;
            && Accepted(r, v)
            && exists i :: from <= i < from + tries
                 && v == Attempt(r, newV4, sha, token, i)
                 && forall j :: from <= j < i ==> !Accepted(r, Attempt(r, newV4, sha, token, j))
    decreases tries
  {
    if !Accepted(r, Attempt(r, newV4, sha, token, from)) {
      SearchFound(r, newV4, sha, token, from + 1, tries - 1);
    }
  }

  /** `hashed_id` panics exactly when all `tries` attempts were rejected. */
  lemma {:induction false} SearchPanics(r: IdRange, newV4: nat -> Uuid, sha: (Uuid, string) -> Digest,
                                        token: string, from: nat, tries: nat)
    requires tries >= 1
    ensures Search(r, newV4, sha, token, from, tries).Panic?
            <==> forall i :: from <= i < from + tries ==> !Accepted(r, Attempt(r, newV4, sha, token, i))
    decreases tries
  {
    if tries > 1 {
      SearchPanics(r, newV4, sha, token, from + 1, tries - 1);
    }
  }

  /**
   * `id_gen`: the range `[1, MAX_ID]`; `maxId` stands for
   * `modality_probe::ProbeId::MAX_ID`, which must be non-zero for the
   * `unwrap`s to succeed. A found id lies in `[1, MAX_ID − 1]`, since the
   * hash is reduced modulo `MAX_ID`.
   */
  method IdGenFor(maxId: NonZeroU32, newV4: nat -> Uuid, sha: (Uuid, string) -> Digest, probeName: string)
    returns (r: Outcome)
    ensures r == Search(IdRange(1, maxId), newV4, sha, probeName, 0, MaxTries)
    ensures r.Found? ==> 1 <= r.id <= maxId - 1
  {
    var range := NewRange(1, maxId);
    var gen := new IdGen(range.value, newV4, sha);
    r := gen.HashedId(probeName);
    if r.Found? {
      SearchFound(range.value, newV4, sha, probeName, 0, MaxTries);
    }
  }
}
