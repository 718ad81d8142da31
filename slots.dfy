/**
 * The Redis Cluster slot calculator of scripts/calculate_slots.py: hash-tag
 * extraction, the slot of a key, the shard of a slot, and the search for
 * hash tags that land on each of two shards.
 *
 * Keys are byte strings. The script works on a Python str and encodes it
 * to UTF-8 only for the checksum; '{' and '}' are ASCII and every byte of
 * a multi-byte UTF-8 character is at least 0x80, so finding and slicing
 * at braces on the str and on its encoding pick out the same bytes.
 */
module SlotCalculator {
  import opened Wrappers
  import opened Crc

  /** Number of hash slots in a Redis cluster. */
  const SlotCount: nat := 16384

  const OpenBrace: byte := 0x7B   // '{'
  const CloseBrace: byte := 0x7D  // '}'

  // ---------------------------------------------------------------------
  // Hash tags and key slots.
  // ---------------------------------------------------------------------

  /** str.find from a start index: an index at or after `from` holding
      `c`, or -1; FindIsFirst shows it is the first such index, and that -1
      means there is none. */
  function Find(s: seq<byte>, c: byte, from: nat): (r: int)
    ensures r == -1 || (from <= r < |s| && s[r] == c)
    decreases |s| - from
  {
    if from >= |s| then -1
    else if s[from] == c then from
    else Find(s, c, from + 1)
  }

  /** The bytes key_slot hashes: the text between the first '{' and the
      first '}' after it when that text is not empty, the whole key
      otherwise. */
  function HashInput(key: seq<byte>): seq<byte> {
    var start := Find(key, OpenBrace, 0);
    if start >= 0 then
      var end := Find(key, CloseBrace, start + 1);
      if end > start + 1 then key[start + 1..end] else key
    else
      key
  }

  /** The hash slot of a key. */
  function KeySlot(key: seq<byte>): (slot: nat)
    ensures slot < SlotCount
  {
    XmodemCrc(HashInput(key)) % SlotCount
  }

  /** key_slot: checksum the hashed part of the key with crc16, then reduce
      modulo the number of slots. */
  method KeySlotOf(key: seq<byte>) returns (slot: nat)
    ensures slot == KeySlot(key)
  {
    var crc := Crc16(HashInput(key));
    slot := crc % SlotCount;
  }

  lemma {:induction false} FindIsFirst(s: seq<byte>, c: byte, from: nat)
    ensures Find(s, c, from) == -1 ==> forall i :: from <= i < |s| ==> s[i] != c
    ensures Find(s, c, from) != -1 ==> forall i :: from <= i < Find(s, c, from) ==> s[i] != c
    decreases |s| - from
  {
    if from < |s| && s[from] != c {
      FindIsFirst(s, c, from + 1);
    }
  }

  lemma FindAt(s: seq<byte>, c: byte, from: nat, k: nat)
    requires from <= k < |s| && s[k] == c
    requires forall i :: from <= i < k ==> s[i] != c
    ensures Find(s, c, from) == k
  {
    FindIsFirst(s, c, from);
  }

  /** A key made of a prefix without '{', then '{', a non-empty tag without
      '}', '}' and anything: only the tag is hashed. */
  lemma TagIsHashed(p: seq<byte>, t: seq<byte>, s: seq<byte>)
    requires OpenBrace !in p && CloseBrace !in t && |t| > 0
    ensures HashInput(p + [OpenBrace] + t + [CloseBrace] + s) == t
  {
    var key := p + [OpenBrace] + t + [CloseBrace] + s;
    assert key[|p|] == OpenBrace;
    assert forall i :: 0 <= i < |p| ==> key[i] == p[i];
    FindAt(key, OpenBrace, 0, |p|);
    assert key[|p| + 1 + |t|] == CloseBrace;
    assert forall i :: |p| + 1 <= i < |p| + 1 + |t| ==> key[i] == t[i - |p| - 1];
    FindAt(key, CloseBrace, |p| + 1, |p| + 1 + |t|);
    assert key[|p| + 1..|p| + 1 + |t|] == t;
  }

  /** A key with no '{', or with no '}' at all, is hashed whole. */
  lemma WholeKeyHashed(key: seq<byte>)
    requires OpenBrace !in key || CloseBrace !in key
    ensures HashInput(key) == key
  {
  }

  /** A key whose first '{' is followed by no '}', or directly by '}', is
      hashed whole: an empty tag does not count. */
  lemma OpenTagHashedWhole(p: seq<byte>, s: seq<byte>)
    requires OpenBrace !in p
    requires CloseBrace !in s || (|s| > 0 && s[0] == CloseBrace)
    ensures HashInput(p + [OpenBrace] + s) == p + [OpenBrace] + s
  {
    var key := p + [OpenBrace] + s;
    assert key[|p|] == OpenBrace;
    assert forall i :: 0 <= i < |p| ==> key[i] == p[i];
    FindAt(key, OpenBrace, 0, |p|);
    assert forall i :: |p| + 1 <= i < |key| ==> key[i] == s[i - |p| - 1];
    if CloseBrace in s {
      FindAt(key, CloseBrace, |p| + 1, |p| + 1);
    }
  }

  /** Keys that share a non-empty hash tag share a slot, and it is the slot
      of the tag itself: the guarantee multi-key commands rely on. */
  lemma SameTagSameSlot(p: seq<byte>, t: seq<byte>, s: seq<byte>)
    requires OpenBrace !in p && CloseBrace !in t && |t| > 0
    ensures KeySlot(p + [OpenBrace] + t + [CloseBrace] + s) == KeySlot(t)
  {
    TagIsHashed(p, t, s);
    WholeKeyHashed(t);
  }

  // ---------------------------------------------------------------------
  // Shards.
  // ---------------------------------------------------------------------

  datatype ShardError = ZeroDivision

  /** Python's floor division `a // b`. */
  function FloorDiv(a: int, b: int): (q: int)
    requires b != 0
    ensures b > 0 ==> b * q <= a < b * q + b
    ensures b < 0 ==> b * q >= a > b * q + b
  {
    if b > 0 then a / b else (-a) / (-b)
  }

  /** get_shard: each of `numShards` shards owns 16384 // numShards
      consecutive slots. Python raises ZeroDivisionError when numShards is
      0 and when 16384 // numShards is 0. */
  function GetShard(slot: int, numShards: int := 2): Result<int, ShardError> {
    if numShards == 0 then Err(ZeroDivision)
    else
      var perShard := FloorDiv(SlotCount, numShards);
      if perShard == 0 then Err(ZeroDivision)
      else Ok(FloorDiv(slot, perShard))
  }

  /** get_shard fails exactly when there are no shards or more shards than
      slots. */
  lemma GetShardFails(slot: int, numShards: int)
    ensures GetShard(slot, numShards).Err? <==> numShards == 0 || numShards > SlotCount
  {
    if numShards != 0 {
      var perShard := FloorDiv(SlotCount, numShards);
      if numShards < 0 {
        assert perShard < 0;
      } else if numShards <= SlotCount {
        assert perShard >= 1;
      } else {
        assert perShard == 0;
      }
    }
  }

  /** With the default two shards, shard 0 owns slots 0-8191 and shard 1
      owns slots 8192-16383, as the script's headings say. */
  lemma TwoShards(slot: int)
    requires 0 <= slot < SlotCount
    ensures GetShard(slot) == Ok(if slot < 8192 then 0 else 1)
  {
    assert FloorDiv(SlotCount, 2) == 8192;
  }

  lemma PerShardPositive(numShards: int)
    requires 0 < numShards <= SlotCount
    ensures SlotCount / numShards >= 1
  {
    var perShard := FloorDiv(SlotCount, numShards);
    assert numShards * (perShard + 1) == numShards * perShard + numShards;
    BelowByFactor(0, perShard + 1, numShards);
  }

  /** With 1 to 16384 shards, the shard of a slot is the block of
      16384 // numShards consecutive slots it falls in. */
  lemma ShardIsBlock(slot: int, numShards: int)
    requires 0 <= slot < SlotCount && 0 < numShards <= SlotCount
    ensures GetShard(slot, numShards).Ok?
    ensures 0 <= GetShard(slot, numShards).value
    ensures SlotCount / numShards * GetShard(slot, numShards).value <= slot
    ensures slot < SlotCount / numShards * (GetShard(slot, numShards).value + 1)
  {
    PerShardPositive(numShards);
    var perShard := SlotCount / numShards;
    var shard := FloorDiv(slot, perShard);
    assert GetShard(slot, numShards) == Ok(shard);
    assert perShard * (shard + 1) == perShard * shard + perShard;
    assert perShard * -1 == -perShard;
    BelowByFactor(-1, shard, perShard);
  }

  lemma BelowByFactor(a: int, b: int, c: int)
    requires c > 0 && c * a < c * b
    ensures a < b
  {
    assert c * b - c * a == c * (b - a);
  }

  /** The last slot falls on a shard that exists exactly when the number
      of shards divides 16384: otherwise the slots left over by the
      division get shard numbers from numShards upward, more than one
      when the remainder is at least 16384 / numShards. */
  lemma LastSlotShardExists(numShards: int)
    requires 0 < numShards <= SlotCount
    ensures GetShard(SlotCount - 1, numShards).value < numShards <==> SlotCount % numShards == 0
  {
    ShardIsBlock(SlotCount - 1, numShards);
    var perShard := SlotCount / numShards;
    var shard := GetShard(SlotCount - 1, numShards).value;
    assert SlotCount == numShards * perShard + SlotCount % numShards;
    assert perShard * (shard + 1) == perShard * shard + perShard;
    if SlotCount % numShards == 0 {
      BelowByFactor(shard, numShards, perShard);
    } else {
      BelowByFactor(numShards, shard + 1, perShard);
    }
  }

  /** Three shards: the last slot lands on a fourth shard, number 3. */
  lemma ThreeShardsOverflow()
    ensures GetShard(SlotCount - 1, 3) == Ok(3)
  {
  }

  /** Two hundred shards: blocks of 81 slots leave 184 over, which get
      three shard numbers that do not exist, 200, 201 and 202. */
  lemma TwoHundredShardsOverflow()
    ensures GetShard(16200, 200) == Ok(200)
    ensures GetShard(16281, 200) == Ok(201)
    ensures GetShard(SlotCount - 1, 200) == Ok(202)
  {
  }

  /** get_shard with the slots left over by the division given to the last
      shard, so that every slot has one of the numShards shards. */
  function ShardOf(slot: int, numShards: int := 2): Result<int, ShardError> {
    match GetShard(slot, numShards)
    case Err(e) => Err(e)
    case Ok(shard) => Ok(if shard >= numShards then numShards - 1 else shard)
  }

  /** Every slot has a shard between 0 and numShards - 1. */
  lemma ShardOfInRange(slot: int, numShards: int)
    requires 0 <= slot < SlotCount && 0 < numShards <= SlotCount
    ensures ShardOf(slot, numShards).Ok?
    ensures 0 <= ShardOf(slot, numShards).value < numShards
  {
    ShardIsBlock(slot, numShards);
  }

  /** Where the number of shards divides 16384, and so with the default
      two shards, the corrected shard is get_shard's. */
  lemma ShardOfAgrees(slot: int, numShards: int)
    requires 0 <= slot < SlotCount && 0 < numShards <= SlotCount
    requires SlotCount % numShards == 0
    ensures ShardOf(slot, numShards) == GetShard(slot, numShards)
  {
    ShardIsBlock(slot, numShards);
    var perShard := SlotCount / numShards;
    var shard := GetShard(slot, numShards).value;
    assert SlotCount == numShards * perShard;
    BelowByFactor(shard, numShards, perShard);
  }

  // ---------------------------------------------------------------------
  // The search for cross-shard hash tags.
  // ---------------------------------------------------------------------

  /** Tags "slot0", "slot1", ... are tried up to this bound. */
  const SearchLimit: nat := 1000

  /** Slots below this bound belong to shard 0 of two. */
  const ShardBoundary: nat := 8192

  const TagPrefix: seq<byte> := [0x73, 0x6C, 0x6F, 0x74]  // "slot"
  const DigitBytes: seq<byte> := [0x30, 0x31, 0x32, 0x33, 0x34, 0x35, 0x36, 0x37, 0x38, 0x39]

  /** The decimal digits of `n`, as f"{n}" writes them. */
  function Decimal(n: nat): (s: seq<byte>)
    ensures |s| > 0
    decreases n
  {
    if n < 10 then [DigitBytes[n]] else Decimal(n / 10) + [DigitBytes[n % 10]]
  }

  lemma {:induction false} DecimalDigits(n: nat)
    ensures forall k :: 0 <= k < |Decimal(n)| ==> Decimal(n)[k] in DigitBytes
    decreases n
  {
    if n >= 10 {
      DecimalDigits(n / 10);
    }
  }

  /** The tag tried at step `i`: f"slot{i}". */
  function Tag(i: nat): seq<byte> {
    TagPrefix + Decimal(i)
  }

  /** A tag and its slot, as the script collects them. */
  datatype Entry = Entry(tag: seq<byte>, slot: nat)

  predicate OnShardZero(i: nat) {
    KeySlot(Tag(i)) < ShardBoundary
  }

  predicate OnShardOne(i: nat) {
    !OnShardZero(i)
  }

  /** Every step below `n` that `keep` accepts, in order. */
  function Matching(n: nat, keep: nat -> bool): seq<nat>
    decreases n
  {
    if n == 0 then [] else Matching(n - 1, keep) + (if keep(n - 1) then [n - 1] else [])
  }

  function FirstTwo(s: seq<nat>): (r: seq<nat>)
    ensures |r| == if |s| < 2 then |s| else 2
    ensures r <= s
  {
    if |s| <= 2 then s else s[..2]
  }

  /** The tags of the given steps, each with its slot. */
  function Entries(steps: seq<nat>): seq<Entry> {
    seq(|steps|, k requires 0 <= k < |steps| => Entry(Tag(steps[k]), KeySlot(Tag(steps[k]))))
  }

  /** Matching lists exactly the steps below `n` that `keep` accepts, each
      once, in increasing order. */
  lemma {:induction false} MatchingExact(n: nat, keep: nat -> bool)
    ensures forall k :: 0 <= k < |Matching(n, keep)| ==> Matching(n, keep)[k] < n && keep(Matching(n, keep)[k])
    ensures forall k, l :: 0 <= k < l < |Matching(n, keep)| ==> Matching(n, keep)[k] < Matching(n, keep)[l]
    ensures forall i :: 0 <= i < n && keep(i) ==> i in Matching(n, keep)
  {
    if n > 0 {
      MatchingExact(n - 1, keep);
    }
  }

  /** Scanning further only appends to Matching. */
  lemma {:induction false} MatchingGrows(m: nat, n: nat, keep: nat -> bool)
    requires m <= n
    ensures Matching(m, keep) <= Matching(n, keep)
    decreases n
  {
    if m < n {
      MatchingGrows(m, n - 1, keep);
    }
  }

  lemma FirstTwoStep(i: nat, keep: nat -> bool)
    ensures FirstTwo(Matching(i + 1, keep)) ==
      if keep(i) && |FirstTwo(Matching(i, keep))| < 2
      then FirstTwo(Matching(i, keep)) + [i]
      else FirstTwo(Matching(i, keep))
  {
  }

  /** Once two steps are found, scanning further changes nothing: the
      script may stop early. */
  lemma FirstTwoSettled(m: nat, n: nat, keep: nat -> bool)
    requires m <= n && |FirstTwo(Matching(m, keep))| >= 2
    ensures FirstTwo(Matching(n, keep)) == FirstTwo(Matching(m, keep))
  {
    MatchingGrows(m, n, keep);
    assert Matching(n, keep)[..2] == Matching(m, keep)[..2];
  }

  lemma ShardStep(i: nat, keep: nat -> bool, found: seq<Entry>, e: Entry, kept: bool)
    requires found == Entries(FirstTwo(Matching(i, keep)))
    requires e == Entry(Tag(i), KeySlot(Tag(i))) && kept == keep(i)
    ensures Entries(FirstTwo(Matching(i + 1, keep))) == if kept && |found| < 2 then found + [e] else found
  {
    FirstTwoStep(i, keep);
  }

  /** One step of the search: the tag of step `i` joins the list of its
      shard when fewer than two have been found there. */
  lemma SearchStep(i: nat, shard0: seq<Entry>, shard1: seq<Entry>, slot: nat)
    requires shard0 == Entries(FirstTwo(Matching(i, OnShardZero)))
    requires shard1 == Entries(FirstTwo(Matching(i, OnShardOne)))
    requires slot == KeySlot(Tag(i))
    ensures Entries(FirstTwo(Matching(i + 1, OnShardZero))) ==
      if slot < ShardBoundary && |shard0| < 2 then shard0 + [Entry(Tag(i), slot)] else shard0
    ensures Entries(FirstTwo(Matching(i + 1, OnShardOne))) ==
      if slot >= ShardBoundary && |shard1| < 2 then shard1 + [Entry(Tag(i), slot)] else shard1
  {
    ShardStep(i, OnShardZero, shard0, Entry(Tag(i), slot), slot < ShardBoundary);
    ShardStep(i, OnShardOne, shard1, Entry(Tag(i), slot), slot >= ShardBoundary);
  }

  /** Once both lists are full the search may stop: scanning the
      remaining steps would leave them as they are. */
  lemma SearchSettled(i: nat, limit: nat, shard0: seq<Entry>, shard1: seq<Entry>)
    requires i <= limit
    requires shard0 == Entries(FirstTwo(Matching(i, OnShardZero))) && |shard0| >= 2
    requires shard1 == Entries(FirstTwo(Matching(i, OnShardOne))) && |shard1| >= 2
    ensures shard0 == Entries(FirstTwo(Matching(limit, OnShardZero)))
    ensures shard1 == Entries(FirstTwo(Matching(limit, OnShardOne)))
  {
    FirstTwoSettled(i, limit, OnShardZero);
    FirstTwoSettled(i, limit, OnShardOne);
  }

  /** One pass of the search loop's body: the tag of step `i` and its slot
      join the list of their shard unless that list is full. */
  method TryTag(i: nat, shard0: seq<Entry>, shard1: seq<Entry>) returns (next0: seq<Entry>, next1: seq<Entry>)
    requires shard0 == Entries(FirstTwo(Matching(i, OnShardZero)))
    requires shard1 == Entries(FirstTwo(Matching(i, OnShardOne)))
    ensures next0 == Entries(FirstTwo(Matching(i + 1, OnShardZero)))
    ensures next1 == Entries(FirstTwo(Matching(i + 1, OnShardOne)))
  {
    var tag := Tag(i);
    var slot := KeySlotOf(tag);
    SearchStep(i, shard0, shard1, slot);
    next0, next1 := shard0, shard1;
    if slot < ShardBoundary && |shard0| < 2 {
      next0 := shard0 + [Entry(tag, slot)];
    } else if slot >= ShardBoundary && |shard1| < 2 {
      next1 := shard1 + [Entry(tag, slot)];
    }
  }

  /** The search of the script's main block: try "slot0", "slot1", ... and
      keep the first two tags whose slot is on shard 0 and the first two
      whose slot is on shard 1, stopping once both lists are full. The
      result is the first two of each shard among the tags tried. The
      script runs it with `limit` = SearchLimit, and ScriptSearchOutcome
      states what it then returns. */
  method FindCrossShardTags(limit: nat) returns (shard0: seq<Entry>, shard1: seq<Entry>)
    ensures shard0 == Entries(FirstTwo(Matching(limit, OnShardZero)))
    ensures shard1 == Entries(FirstTwo(Matching(limit, OnShardOne)))
  {
    shard0 := [];
    shard1 := [];
    for i := 0 to limit
      invariant shard0 == Entries(FirstTwo(Matching(i, OnShardZero)))
      invariant shard1 == Entries(FirstTwo(Matching(i, OnShardOne)))
    {
      shard0, shard1 := TryTag(i, shard0, shard1);
      if |shard0| >= 2 && |shard1| >= 2 {
        SearchSettled(i + 1, limit, shard0, shard1);
        break;
      }
    }
  }

  /** The first two steps `keep` accepts below `n`: at most two, each below
      `n` and accepted, in increasing order. */
  lemma FirstTwoShape(n: nat, keep: nat -> bool)
    ensures |FirstTwo(Matching(n, keep))| <= 2
    ensures forall k :: 0 <= k < |FirstTwo(Matching(n, keep))| ==>
              FirstTwo(Matching(n, keep))[k] < n && keep(FirstTwo(Matching(n, keep))[k])
    ensures forall k, l :: 0 <= k < l < |FirstTwo(Matching(n, keep))| ==>
              FirstTwo(Matching(n, keep))[k] < FirstTwo(Matching(n, keep))[l]
  {
    MatchingExact(n, keep);
  }

  /** The lists the search returns, for any bound: at most two entries each;
      each entry holds its tag's slot, below 8192 for shard 0 and at or
      above 8192 for shard 1; the tags come in the order they were tried. */
  lemma SearchShape(n: nat)
    ensures |Entries(FirstTwo(Matching(n, OnShardZero)))| <= 2
    ensures |Entries(FirstTwo(Matching(n, OnShardOne)))| <= 2
    ensures forall k :: 0 <= k < |Entries(FirstTwo(Matching(n, OnShardZero)))| ==>
              Entries(FirstTwo(Matching(n, OnShardZero)))[k].slot < ShardBoundary
    ensures forall k :: 0 <= k < |Entries(FirstTwo(Matching(n, OnShardOne)))| ==>
              ShardBoundary <= Entries(FirstTwo(Matching(n, OnShardOne)))[k].slot < SlotCount
    ensures forall k, l :: 0 <= k < l < |FirstTwo(Matching(n, OnShardZero))| ==>
              FirstTwo(Matching(n, OnShardZero))[k] < FirstTwo(Matching(n, OnShardZero))[l]
    ensures forall k, l :: 0 <= k < l < |FirstTwo(Matching(n, OnShardOne))| ==>
              FirstTwo(Matching(n, OnShardOne))[k] < FirstTwo(Matching(n, OnShardOne))[l]
  {
    FirstTwoShape(n, OnShardZero);
    FirstTwoShape(n, OnShardOne);
  }

  // ---------------------------------------------------------------------
  // What the search finds.
  // ---------------------------------------------------------------------

  lemma PrefixSteps()
    ensures ByteStep(0x0000, 0x73) == 0x4ef4
    ensures ByteStep(0x4ef4, 0x6c) == 0xf020
    ensures ByteStep(0xf020, 0x6f) == 0x5256
  {
  }

  lemma DigitStepsA()
    ensures ByteStep(0x5256, 0x74) == 0x12a4
    ensures ByteStep(0x12a4, 0x30) == 0xa020
    ensures ByteStep(0x12a4, 0x31) == 0xb001
  {
  }

  lemma DigitStepsB()
    ensures ByteStep(0x12a4, 0x32) == 0x8062
    ensures ByteStep(0x12a4, 0x33) == 0x9043
  {
  }

  /** The register after "slot" is 0x12A4; a one-digit tag adds one byte
      step from there. */
  lemma OneDigitTagSlot(i: nat, d: byte)
    requires i < 10 && d == DigitBytes[i]
    ensures KeySlot(Tag(i)) == Low16(ByteStep(0x12a4, d)) % SlotCount
  {
    assert Tag(i) == [0x73, 0x6c, 0x6f, 0x74, d];
    WholeKeyHashed(Tag(i));
    PrefixSteps();
    DigitStepsA();
    FeedOne(0x0000, 0x73, [0x6c, 0x6f, 0x74, d]);
    FeedOne(0x4ef4, 0x6c, [0x6f, 0x74, d]);
    FeedOne(0xf020, 0x6f, [0x74, d]);
    FeedOne(0x5256, 0x74, [d]);
    FeedOne(0x12a4, d, []);
  }

  // The four lemmas below take the tag number as a parameter fixed by their
  // precondition instead of writing Tag(0), Tag(1), ... in the postcondition:
  // on a literal argument the verifier unfolds Tag and the whole CRC of the
  // key by itself, which is expensive and unstable, whereas the route
  // through OneDigitTagSlot and the byte-step lemmas stays cheap.

  /** "slot0" lands on shard 1. */
  lemma TagZeroSlot(i: nat)
    requires i == 0
    ensures KeySlot(Tag(i)) == 8224
  {
    DigitStepsA();
    OneDigitTagSlot(i, 0x30);
  }

  /** "slot1" lands on shard 1. */
  lemma TagOneSlot(i: nat)
    requires i == 1
    ensures KeySlot(Tag(i)) == 12289
  {
    DigitStepsA();
    OneDigitTagSlot(i, 0x31);
  }

  /** "slot2" lands on shard 0. */
  lemma TagTwoSlot(i: nat)
    requires i == 2
    ensures KeySlot(Tag(i)) == 98
  {
    DigitStepsB();
    OneDigitTagSlot(i, 0x32);
  }

  /** "slot3" lands on shard 0. */
  lemma TagThreeSlot(i: nat)
    requires i == 3
    ensures KeySlot(Tag(i)) == 4163
  {
    DigitStepsB();
    OneDigitTagSlot(i, 0x33);
  }

  lemma FirstTwoAreZeroOne(n: nat, keep: nat -> bool)
    requires 2 <= n && keep(0) && keep(1)
    ensures FirstTwo(Matching(n, keep)) == [0, 1]
  {
    assert Matching(2, keep) == [0, 1] by {
      assert Matching(1, keep) == [0];
    }
    FirstTwoSettled(2, n, keep);
  }

  lemma FirstTwoAreTwoThree(n: nat, keep: nat -> bool)
    requires 4 <= n && !keep(0) && !keep(1) && keep(2) && keep(3)
    ensures FirstTwo(Matching(n, keep)) == [2, 3]
  {
    assert Matching(4, keep) == [2, 3] by {
      assert Matching(2, keep) == [] by {
        assert Matching(1, keep) == [];
      }
      assert Matching(3, keep) == [2];
    }
    FirstTwoSettled(4, n, keep);
  }

  /** "slot0" and "slot1" land on shard 1, "slot2" and "slot3" on shard 0. */
  lemma FirstTagShards()
    ensures OnShardOne(0) && OnShardOne(1) && OnShardZero(2) && OnShardZero(3)
  {
    TagZeroSlot(0);
    TagOneSlot(1);
    TagTwoSlot(2);
    TagThreeSlot(3);
  }

  lemma EntriesOfTwo(a: nat, b: nat)
    ensures Entries([a, b]) == [Entry(Tag(a), KeySlot(Tag(a))), Entry(Tag(b), KeySlot(Tag(b)))]
  {
  }

  /** Scanning at least "slot0" to "slot3", the search finds "slot2" and
      "slot3" for shard 0, with their slots. */
  lemma ShardZeroOutcome(n: nat)
    requires 4 <= n
    ensures Entries(FirstTwo(Matching(n, OnShardZero))) == [Entry(Tag(2), 98), Entry(Tag(3), 4163)]
  {
    FirstTagShards();
    FirstTwoAreTwoThree(n, OnShardZero);
    EntriesOfTwo(2, 3);
    TagTwoSlot(2);
    TagThreeSlot(3);
  }

  /** Scanning at least "slot0" and "slot1", the search finds them for
      shard 1, with their slots. */
  lemma ShardOneOutcome(n: nat)
    requires 2 <= n
    ensures Entries(FirstTwo(Matching(n, OnShardOne))) == [Entry(Tag(0), 8224), Entry(Tag(1), 12289)]
  {
    FirstTagShards();
    FirstTwoAreZeroOne(n, OnShardOne);
    EntriesOfTwo(0, 1);
    TagZeroSlot(0);
    TagOneSlot(1);
  }

  /** The search as the script runs it, over "slot0" to "slot999": shard 0
      gets "slot2" (slot 98) and "slot3" (slot 4163), shard 1 gets "slot0"
      (slot 8224) and "slot1" (slot 12289). */
  lemma ScriptSearchOutcome()
    ensures Entries(FirstTwo(Matching(SearchLimit, OnShardZero))) == [Entry(Tag(2), 98), Entry(Tag(3), 4163)]
    ensures Entries(FirstTwo(Matching(SearchLimit, OnShardOne))) == [Entry(Tag(0), 8224), Entry(Tag(1), 12289)]
  {
    ShardZeroOutcome(SearchLimit);
    ShardOneOutcome(SearchLimit);
  }

  lemma DigitIsNotBrace(b: byte)
    requires b in DigitBytes
    ensures b != CloseBrace
  {
  }

  /** No tag contains '}'. */
  lemma TagHasNoCloseBrace(i: nat)
    ensures CloseBrace !in Tag(i)
  {
    DecimalDigits(i);
    forall k | 0 <= k < |Tag(i)|
      ensures Tag(i)[k] != CloseBrace
    {
      if k >= |TagPrefix| {
        assert Tag(i)[k] == Decimal(i)[k - |TagPrefix|];
        DigitIsNotBrace(Decimal(i)[k - |TagPrefix|]);
      }
    }
  }

  /** The recommended test keys "{slot0}", "{slot1}", ... land in the slot
      of their tag. */
  lemma RecommendedKeySlot(i: nat)
    ensures KeySlot([OpenBrace] + Tag(i) + [CloseBrace]) == KeySlot(Tag(i))
  {
    TagHasNoCloseBrace(i);
    BracedTagSlot(Tag(i));
  }

  /** The slots the Python cluster example gives for its test keys:
      "{slot2}" 98 and "{slot3}" 4163 on shard 0, "{slot0}" 8224 and
      "{slot1}" 12289 on shard 1. */
  lemma CommentedKeySlots()
    ensures KeySlot([OpenBrace] + Tag(2) + [CloseBrace]) == 98
    ensures KeySlot([OpenBrace] + Tag(3) + [CloseBrace]) == 4163
    ensures KeySlot([OpenBrace] + Tag(0) + [CloseBrace]) == 8224
    ensures KeySlot([OpenBrace] + Tag(1) + [CloseBrace]) == 12289
  {
    RecommendedKeySlot(2);
    RecommendedKeySlot(3);
    RecommendedKeySlot(0);
    RecommendedKeySlot(1);
    TagTwoSlot(2);
    TagThreeSlot(3);
    TagZeroSlot(0);
    TagOneSlot(1);
  }

  lemma BracedTagSlot(t: seq<byte>)
    requires CloseBrace !in t && |t| > 0
    ensures KeySlot([OpenBrace] + t + [CloseBrace]) == KeySlot(t)
  {
    SameTagSameSlot([], t, []);
    assert [] + [OpenBrace] + t + [CloseBrace] + [] == [OpenBrace] + t + [CloseBrace];
  }

  // ---------------------------------------------------------------------
  // The printed test keys.
  // ---------------------------------------------------------------------

  const KeyHead: seq<byte> := [0x74, 0x65, 0x73, 0x74, 0x3A]  // "test:"
  const KeyTail: seq<byte> := [0x3A, 0x64, 0x61, 0x74, 0x61]  // ":data"
  const Space: byte := 0x20

  /** The test key printed for a tag, as the format string writes it: four
      braces in the format are two braces in the output, so the key is
      "test:{{ " + tag + " }}:data". */
  function PrintedKey(tag: seq<byte>): seq<byte> {
    KeyHead + [OpenBrace, OpenBrace, Space] + tag + [Space, CloseBrace, CloseBrace] + KeyTail
  }

  /** The printed key's hash tag is "{ " + tag + " ", not the tag. */
  lemma PrintedKeyHashesBraces(tag: seq<byte>)
    requires CloseBrace !in tag
    ensures HashInput(PrintedKey(tag)) == [OpenBrace, Space] + tag + [Space]
  {
    var t := [OpenBrace, Space] + tag + [Space];
    assert PrintedKey(tag) == KeyHead + [OpenBrace] + t + [CloseBrace] + ([CloseBrace] + KeyTail);
    TagIsHashed(KeyHead, t, [CloseBrace] + KeyTail);
  }

  lemma BraceTagStepsA()
    ensures ByteStep(0x0000, 0x7b) == 0xcffc
    ensures ByteStep(0xcffc, 0x20) == 0xf0c1
    ensures ByteStep(0xf0c1, 0x73) == 0x60eb
  {
  }

  lemma BraceTagStepsB()
    ensures ByteStep(0x60eb, 0x6c) == 0x2a8c
    ensures ByteStep(0x2a8c, 0x6f) == 0x9461
    ensures ByteStep(0x9461, 0x74) == 0x9c2e
  {
  }

  lemma BraceTagStepsC()
    ensures ByteStep(0x9c2e, 0x31) == 0x4a47
    ensures ByteStep(0x4a47, 0x20) == 0x8aec
  {
  }

  /** The checksum of "{ slot1 ". */
  lemma BraceTagCrc()
    ensures XmodemCrc([0x7b, 0x20, 0x73, 0x6c, 0x6f, 0x74, 0x31, 0x20]) == 0x8aec
  {
    BraceTagStepsA();
    BraceTagStepsB();
    BraceTagStepsC();
    FeedOne(0x0000, 0x7b, [0x20, 0x73, 0x6c, 0x6f, 0x74, 0x31, 0x20]);
    FeedOne(0xcffc, 0x20, [0x73, 0x6c, 0x6f, 0x74, 0x31, 0x20]);
    FeedOne(0xf0c1, 0x73, [0x6c, 0x6f, 0x74, 0x31, 0x20]);
    FeedOne(0x60eb, 0x6c, [0x6f, 0x74, 0x31, 0x20]);
    FeedOne(0x2a8c, 0x6f, [0x74, 0x31, 0x20]);
    FeedOne(0x9461, 0x74, [0x31, 0x20]);
    FeedOne(0x9c2e, 0x31, [0x20]);
    FeedOne(0x4a47, 0x20, []);
  }

  /** The key printed for "slot1" under shard 1 lands in slot 2796, which
      is on shard 0 (TagOneSlot gives "slot1" itself slot 12289). */
  lemma PrintedKeyOnOtherShard()
    ensures KeySlot(PrintedKey(Tag(1))) == 2796
  {
    var tag := Tag(1);
    assert tag == [0x73, 0x6c, 0x6f, 0x74, 0x31];
    PrintedKeyHashesBraces(tag);
    assert [OpenBrace, Space] + tag + [Space] == [0x7b, 0x20, 0x73, 0x6c, 0x6f, 0x74, 0x31, 0x20];
    BraceTagCrc();
  }

  /** The test key the script evidently means: "test:{" + tag + "}:data". */
  function TestKey(tag: seq<byte>): seq<byte> {
    KeyHead + [OpenBrace] + tag + [CloseBrace] + KeyTail
  }

  /** A test key lands in the slot of its tag, so it is on the shard the
      tag was found for. */
  lemma TestKeySlot(tag: seq<byte>)
    requires CloseBrace !in tag && |tag| > 0
    ensures KeySlot(TestKey(tag)) == KeySlot(tag)
  {
    SameTagSameSlot(KeyHead, tag, KeyTail);
  }
}
