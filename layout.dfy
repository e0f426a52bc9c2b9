/**
 * Sizes, constants and integer conversions of the allocator (malloc.c:15-26),
 * with the machine widths written out: `size_t` is 64 bits, `int` is 32 bits,
 * and `sizeof(struct block)` / `sizeof(struct region)` are their LP64 values.
 */
module Layout {
  import opened Wrappers

  const BLOCK_HEADER: nat := 24      // sizeof(struct block)
  const REGION_HEADER: nat := 40     // sizeof(struct region)
  const MIN_SIZE_REGION: nat := 256
  const MAGIC_NUMBER: int := 517283971

  const LITTLE_BLOCK_SIZE: nat := 16 * 1024
  const MID_BLOCK_SIZE: nat := 1024 * 1024
  const LARGE_BLOCK_SIZE: nat := 32 * MID_BLOCK_SIZE
  const MAX_LITTLE_BLOCKS: nat := 25
  const MAX_MID_BLOCKS: nat := 50
  const MAX_LARGE_BLOCKS: nat := 25

  /** Smallest leftover that `malloc` and `realloc` split off: a header plus a minimum payload. */
  const SPLIT_THRESHOLD: nat := REGION_HEADER + MIN_SIZE_REGION

  /**
   * Header offset of a block's first region inside the mapped span. The source places it
   * after a block header AND a region header (malloc.c:173-174), so the first region's
   * payload of BlockSize - 64 bytes ends 40 bytes past the end of the mapping.
   */
  const FIRST_REGION_AT: nat := BLOCK_HEADER + REGION_HEADER

  /**
   * 2^64 and 2^32. The remainders below use the literals themselves: a remainder by a named
   * constant reaches the solver as nonlinear arithmetic.
   */
  const SIZE_T_LIMIT: nat := 0x1_0000_0000_0000_0000
  const INT_MODULUS: nat := 0x1_0000_0000

  datatype Tier = Little | Mid | Large

  function BlockSize(t: Tier): nat
  {
    match t
    case Little => LITTLE_BLOCK_SIZE
    case Mid => MID_BLOCK_SIZE
    case Large => LARGE_BLOCK_SIZE
  }

  function MaxBlocks(t: Tier): nat
  {
    match t
    case Little => MAX_LITTLE_BLOCKS
    case Mid => MAX_MID_BLOCKS
    case Large => MAX_LARGE_BLOCKS
  }

  /** Payload of the single region a new block is carved into (malloc.c:176-177). */
  function FirstPayload(t: Tier): (p: nat)
    ensures p + BLOCK_HEADER + REGION_HEADER == BlockSize(t)
  {
    BlockSize(t) - BLOCK_HEADER - REGION_HEADER
  }

  /** The C conversion `(int) x`: the low 32 bits of x read in two's complement. */
  function Int32(x: int): (r: int)
    ensures -0x8000_0000 <= r < 0x8000_0000
  {
    var w := x % 0x1_0000_0000;
    if w < 0x8000_0000 then w else w - INT_MODULUS
  }

  /** `(int) x` differs from x by a multiple of 2^32, and is x itself when x is in the `int` range. */
  lemma Int32Wraps(x: int)
    ensures (x - Int32(x)) % INT_MODULUS == 0
    ensures -0x8000_0000 <= x < 0x8000_0000 ==> Int32(x) == x
  {
  }

  /** A size the allocator refuses with ENOMEM: its `(int)` reading is negative (malloc.c:255). */
  predicate Rejected(size: nat)
  {
    Int32(size) < 0
  }

  /** `ALIGN4` of malloc.c:24, for the s >= 1 it is applied to: the least multiple of 4 at or above s. */
  function Align4(s: nat): (r: nat)
    requires s >= 1
    ensures r % 4 == 0
    ensures s <= r < s + 4
  {
    ((s - 1) / 4) * 4 + 4
  }

  /** Request normalisation of malloc.c:263-268: raise to 256, then ALIGN4. */
  function Normalize(size: nat): (n: nat)
    ensures n % 4 == 0 && n >= MIN_SIZE_REGION && n >= size
    ensures forall m: nat {:trigger m % 4} :: m % 4 == 0 && m >= MIN_SIZE_REGION && m >= size ==> n <= m
  {
    Align4(if size < MIN_SIZE_REGION then MIN_SIZE_REGION else size)
  }

  /** Every request of 1 to 255 bytes is accounted as exactly 256 bytes. */
  lemma SmallRequestsCost256(size: nat)
    requires 1 <= size < MIN_SIZE_REGION
    ensures Normalize(size) == 256
  {
  }

  /** An accepted request never makes `ALIGN4` wrap around 2^64. */
  lemma AcceptedSizeFits(size: nat)
    requires size < SIZE_T_LIMIT && !Rejected(size)
    ensures Normalize(size) < SIZE_T_LIMIT
  {
  }

  /** `size_t` subtraction a - b, which wraps modulo 2^64 when b > a (malloc.c:287). */
  function WrapSub(a: nat, b: nat): (r: nat)
    requires a < SIZE_T_LIMIT && b < SIZE_T_LIMIT
    ensures r < SIZE_T_LIMIT
    ensures a >= b ==> r == a - b
    ensures a < b ==> r == SIZE_T_LIMIT - (b - a)
  {
    (a - b) % 0x1_0000_0000_0000_0000
  }

  /** `size_t` product a * b, which wraps modulo 2^64 (malloc.c:403, 405). */
  function WrapMul(a: nat, b: nat): (r: nat)
    ensures r < SIZE_T_LIMIT
    ensures a * b < SIZE_T_LIMIT ==> r == a * b
    ensures (a * b - r) % 0x1_0000_0000_0000_0000 == 0
  {
    (a * b) % 0x1_0000_0000_0000_0000
  }

  /**
   * Tier chosen for a new block on a miss (malloc.c:229-247), given the three block
   * counters: the first tier, little then mid then large, whose whole block size is
   * at least n and whose counter is below its cap.
   */
  function SelectTier(n: nat, little: int, mid: int, large: int): (r: Option<Tier>)
  {
    if n <= LITTLE_BLOCK_SIZE && little < MAX_LITTLE_BLOCKS then Some(Little)
    else if n <= MID_BLOCK_SIZE && mid < MAX_MID_BLOCKS then Some(Mid)
    else if n <= LARGE_BLOCK_SIZE && large < MAX_LARGE_BLOCKS then Some(Large)
    else None
  }

  function Count(t: Tier, little: int, mid: int, large: int): int
  {
    match t
    case Little => little
    case Mid => mid
    case Large => large
  }

  /**
   * What SelectTier promises: the chosen tier admits n and has room, every smaller
   * tier was either too small or full, and None means no tier admits n with room.
   */
  lemma SelectTierIsFirstOpenTier(n: nat, little: int, mid: int, large: int)
    ensures var r := SelectTier(n, little, mid, large);
      (r.Some? ==> n <= BlockSize(r.value) && Count(r.value, little, mid, large) < MaxBlocks(r.value)) &&
      (r == Some(Mid) ==> !(n <= LITTLE_BLOCK_SIZE && little < MAX_LITTLE_BLOCKS)) &&
      (r == Some(Large) ==> !(n <= LITTLE_BLOCK_SIZE && little < MAX_LITTLE_BLOCKS) &&
                            !(n <= MID_BLOCK_SIZE && mid < MAX_MID_BLOCKS)) &&
      (r.None? <==> forall t: Tier :: !(n <= BlockSize(t) && Count(t, little, mid, large) < MaxBlocks(t)))
  {
    var r := SelectTier(n, little, mid, large);
    if r.None? {
      forall t: Tier ensures !(n <= BlockSize(t) && Count(t, little, mid, large) < MaxBlocks(t)) {
      }
    }
  }

  /**
   * The tier test of create_block compares n with the WHOLE block size, while the region it
   * builds only holds BlockSize - 64 bytes: a request in that 64-byte window gets an undersized
   * region, and the slack test of malloc.c:287 then wraps to a huge value and splits.
   */
  lemma UndersizedRegionWraps(n: nat, t: Tier)
    requires FirstPayload(t) < n <= BlockSize(t)
    ensures WrapSub(FirstPayload(t), n) >= SPLIT_THRESHOLD
    ensures WrapSub(FirstPayload(t), n) > BlockSize(t)
  {
  }

  /** The sole case where create_block hands back a region smaller than the request. */
  predicate Undersized(n: nat, little: int, mid: int, large: int)
  {
    var r := SelectTier(n, little, mid, large);
    r.Some? && n > FirstPayload(r.value)
  }

  /** The request sizes that can hit the window: the top 64 bytes below each block size. */
  lemma UndersizedWindows(n: nat, little: int, mid: int, large: int)
    requires Undersized(n, little, mid, large)
    ensures (LITTLE_BLOCK_SIZE - 64 < n <= LITTLE_BLOCK_SIZE) ||
            (MID_BLOCK_SIZE - 64 < n <= MID_BLOCK_SIZE) ||
            (LARGE_BLOCK_SIZE - 64 < n <= LARGE_BLOCK_SIZE)
  {
  }

  /**
   * The switch of update_block_list and delete_block (malloc.c:297-307, 335-345): the tier
   * is recognised from a sole region's payload plus both headers.
   */
  function TierOfSpan(payload: nat): (r: Option<Tier>)
    ensures r.Some? ==> payload == FirstPayload(r.value)
    ensures forall t: Tier :: payload == FirstPayload(t) ==> r == Some(t)
  {
    var whole := payload + BLOCK_HEADER + REGION_HEADER;
    if whole == LITTLE_BLOCK_SIZE then Some(Little)
    else if whole == MID_BLOCK_SIZE then Some(Mid)
    else if whole == LARGE_BLOCK_SIZE then Some(Large)
    else None
  }
}
