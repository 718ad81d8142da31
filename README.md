# Azure Managed Redis OSS-cluster address remapping and slot calculation

This project models the two pieces of exact logic in the repository's Azure Managed Redis examples.

1. **Slot calculator** (`scripts/calculate_slots.py`). It covers CRC-16/XMODEM (`crc16`), hash-tag extraction and the key slot (`key_slot`), and the shard of a slot (`get_shard`). It also covers the script's search for hash tags `slot0`, `slot1`, … that land on each of two shards.
2. **Private-address remap policy.** Under the OSS cluster policy the cluster reports its nodes by internal address. Every example installs a function from `(host, port)` to the address actually dialled. That function replaces a private-looking host with the public hostname and keeps the port. The model covers:
   - the Python closures;
   - the Lettuce and Jedis mappers;
   - the two Spring Boot configurations. `RedisClusterConfig` has a once-written `cacheIP` field. `RedisConfig` switches on the cluster policy and on `authType`.
   - the address and TLS server-name choice of the Go cluster dialer.

Modules, one per component:

| file | module | models |
|---|---|---|
| `wrappers.dfy` | `Wrappers` | `Option`, `Result` |
| `crc.dfy` | `Crc` | `crc16` |
| `slots.dfy` | `SlotCalculator` | `key_slot`, `get_shard`, the tag search of the main block |
| `hosts.dfy` | `PrivateHosts` | the 18-prefix `isInternalIP` / `isPrivateIP` and the broad 3-prefix test |
| `remap.dfy` | `AddressRemap` | the Python, Lettuce and Jedis remap functions |
| `spring_cluster_config.dfy` | `SpringClusterConfig` | `RedisClusterConfig.mappingFunction` |
| `spring_redis_config.dfy` | `SpringRedisConfig` | `RedisConfig`: policy switch, resolver lambda, `authType` switch |
| `go_cluster_dialer.dfy` | `GoClusterDialer` | host, port and SNI selection in `createClusterDialer` |

Modelling decisions:

- **Keys are byte sequences.** `'{'` and `'}'` are ASCII, and every byte of a multi-byte UTF-8 character is at least 0x80. So `str.find` and slicing on the Python string pick out the same bytes as a byte-level search on `key.encode()`.
- **The CRC register.** `crc16` keeps its register in an unbounded Python integer and masks it after every bit step. Before a mask the value never exceeds 17 bits, so the register is modelled as a `bv32`. The masking is written out exactly as the script does it.
- **One 18-prefix predicate for six copies.** The six 18-prefix predicates (Python cluster example, Lettuce, Jedis, both Spring classes, Go) list the same eighteen literals in the same order. The model therefore states the predicate once, as `PrivateHosts.IsInternalIP`. Python `startswith`, Java `startsWith` and Go `HasPrefix` all mean the same prefix test, `PrivateHosts.StartsWith`.
- **One broad predicate for two copies.** The two broad copies (Python user- and system-assigned examples) are textually identical and are stated once, as `PrivateHosts.IsBroadPrivate`. Both are therefore extensionally equal by construction.
- **Oracle inputs.**
  - The DNS lookup in `RedisClusterConfig` is a parameter. `None` stands for `UnknownHostException`.
  - `net.SplitHostPort` and `net.JoinHostPort` are function parameters of the Go model. `split` is partial.
- **Behaviour the model keeps as the code has it:**
  - The private test is a text-prefix match, not a numeric CIDR test. So `"10.example"` is remapped. The code itself has no enumeration bug, though: `Prefixes172` proves that the sixteen `172.x.` prefixes are exactly a second field of 16–31.
  - Nothing rejects an empty public hostname. The remap functions accept any string.
  - Slots left over when the number of shards does not divide 16384 get shard numbers from `num_shards` upward: one extra number while the remainder is below `16384 // num_shards`, more than one otherwise (200 shards give 200, 201 and 202). They are not absorbed by the last shard (see Findings).

## Model

| member | source | states |
|---|---|---|
| `Crc.Crc16` | scripts/calculate_slots.py:7-18 | The byte-and-bit loop returns the CRC-16/XMODEM checksum of the data (initial 0, polynomial 0x1021, MSB first, no final xor), a value in 0..0xFFFF |
| `Crc.ShiftBit` | scripts/calculate_slots.py:13-17 | One inner-loop iteration (branch on bit 15, shift, xor 0x1021, mask) is the bit step of the checksum |
| `Crc.EmptyCrc` | scripts/calculate_slots.py:9-18 | The checksum of the empty input is 0 |
| `Crc.CrcFromBounded` | scripts/calculate_slots.py:11-17 | Masking after every bit step keeps the register within 16 bits whatever bytes are fed |
| `Crc.CrcFromAppend` | scripts/calculate_slots.py:10-11 | Feeding a message in two parts gives the same register as feeding it whole |
| `Crc.AppendedCrcIsZero` | scripts/calculate_slots.py:7-18 | A message followed by its own checksum, high byte first, has checksum 0 (the CRC residue property) |
| `Crc.XmodemCheckValue` | scripts/calculate_slots.py:8 | The checksum of ASCII "123456789" is 0x31C3, the published check value of the Redis Cluster CRC16 |
| `SlotCalculator.Find` | scripts/calculate_slots.py:24-26 | `str.find` returns -1 or an index at or after the start that holds the character |
| `SlotCalculator.FindIsFirst` | scripts/calculate_slots.py:24 | `str.find` returns the first such index, and -1 only when there is none |
| `SlotCalculator.KeySlot` | scripts/calculate_slots.py:29 | Every key's slot is below 16384 |
| `SlotCalculator.KeySlotOf` | scripts/calculate_slots.py:21-29 | `key_slot` is the checksum of the hash input modulo 16384 |
| `SlotCalculator.TagIsHashed` | scripts/calculate_slots.py:24-28 | With a prefix free of `{`, a non-empty tag free of `}` and any suffix, only the tag is hashed |
| `SlotCalculator.WholeKeyHashed` | scripts/calculate_slots.py:24-25 | A key with no `{`, or with no `}`, is hashed whole |
| `SlotCalculator.OpenTagHashedWhole` | scripts/calculate_slots.py:26-27 | After the first `{`, a missing `}` or an adjacent `{}` makes the whole key hashed; later braces are not considered |
| `SlotCalculator.SameTagSameSlot` | scripts/calculate_slots.py:23-29 | `key_slot(p + "{" + t + "}" + s) == key_slot(t)` for such p and t |
| `SlotCalculator.FloorDiv` | scripts/calculate_slots.py:34-35 | Python `//` rounds toward minus infinity for either sign of divisor |
| `SlotCalculator.GetShardFails` | scripts/calculate_slots.py:34-35 | `get_shard` raises ZeroDivisionError exactly when `num_shards` is 0 or above 16384 |
| `SlotCalculator.TwoShards` | scripts/calculate_slots.py:32-35 | With the default two shards, slots 0-8191 give 0 and 8192-16383 give 1 |
| `SlotCalculator.ShardIsBlock` | scripts/calculate_slots.py:34 | For 1..16384 shards, a slot's shard is the block of `16384 // n` consecutive slots it falls in |
| `SlotCalculator.LastSlotShardExists` | scripts/calculate_slots.py:35 | The last slot's shard is below `num_shards` iff `num_shards` divides 16384 |
| `SlotCalculator.ThreeShardsOverflow` | scripts/calculate_slots.py:33-35 | With three shards, slot 16383 gets shard number 3 |
| `SlotCalculator.TwoHundredShardsOverflow` | scripts/calculate_slots.py:33-35 | With 200 shards, slots 16200, 16281 and 16383 get the non-existent shard numbers 200, 201 and 202 |
| `SlotCalculator.ShardOfInRange` | scripts/calculate_slots.py:33 | The corrected shard function gives every slot a shard in `0..num_shards-1` |
| `SlotCalculator.ShardOfAgrees` | scripts/calculate_slots.py:32-35 | When `num_shards` divides 16384 the corrected shard is `get_shard`'s |
| `SlotCalculator.TryTag` | scripts/calculate_slots.py:51-56 | One loop pass appends `(tag, slot)` to the list of its shard unless that list already holds two |
| `SlotCalculator.FindCrossShardTags` | scripts/calculate_slots.py:47-58 | The loop with its `break` returns the first two tags of each shard among those tried |
| `SlotCalculator.SearchSettled` | scripts/calculate_slots.py:57-58 | Once both lists hold two entries, scanning further changes neither, so stopping early is sound |
| `SlotCalculator.SearchShape` | scripts/calculate_slots.py:53-56 | Each list holds at most two entries; shard-0 slots are below 8192 and shard-1 slots are 8192..16383; tags come in increasing `i` |
| `SlotCalculator.ShardZeroOutcome` | scripts/calculate_slots.py:53-54 | The shard-0 list is `slot2` (98) then `slot3` (4163) |
| `SlotCalculator.ShardOneOutcome` | scripts/calculate_slots.py:55-56 | The shard-1 list is `slot0` (8224) then `slot1` (12289) |
| `SlotCalculator.ScriptSearchOutcome` | scripts/calculate_slots.py:50-58 | With the script's bound of 1000, shard 0 gets `slot2` (98) and `slot3` (4163), shard 1 gets `slot0` (8224) and `slot1` (12289) |
| `SlotCalculator.TagZeroSlot` | scripts/calculate_slots.py:51-52 | `key_slot("slot0")` is 8224 |
| `SlotCalculator.TagOneSlot` | scripts/calculate_slots.py:51-52 | `key_slot("slot1")` is 12289 |
| `SlotCalculator.TagTwoSlot` | scripts/calculate_slots.py:51-52 | `key_slot("slot2")` is 98 |
| `SlotCalculator.TagThreeSlot` | scripts/calculate_slots.py:51-52 | `key_slot("slot3")` is 4163 |
| `SlotCalculator.RecommendedKeySlot` | scripts/calculate_slots.py:72-74 | The recommended key `"{slotN}"` lands in the slot of `slotN` |
| `SlotCalculator.CommentedKeySlots` | examples/python/cluster_managed_identity_example.py:206-211 | `{slot2}`, `{slot3}`, `{slot0}` and `{slot1}` have slots 98, 4163, 8224 and 12289 |
| `SlotCalculator.PrintedKeyHashesBraces` | scripts/calculate_slots.py:62 | The printed key `test:{{ tag }}:data` hashes `"{ " + tag + " "`, not the tag |
| `SlotCalculator.PrintedKeyOnOtherShard` | scripts/calculate_slots.py:67 | The key printed for `slot1` under shard 1 lands in slot 2796, on shard 0 |
| `SlotCalculator.TestKeySlot` | scripts/calculate_slots.py:60-67 | The intended key `test:{tag}:data` lands in the slot of its tag |
| `PrivateHosts.InternalIsPrivateText` | examples/java-lettuce/src/main/java/com/example/ClusterManagedIdentityExample.java:278-298 | `isInternalIP` holds iff the host starts with `10.`, or with `172.` and a two-digit field 16..31 and `.`, or with `192.168.` |
| `PrivateHosts.Prefixes172` | examples/java-lettuce/src/main/java/com/example/ClusterManagedIdentityExample.java:281-296 | The sixteen `172.16.`-`172.31.` prefixes are exactly a two-digit second field of value 16..31 |
| `PrivateHosts.DottedQuadInternal` | examples/java-lettuce/src/main/java/com/example/ClusterManagedIdentityExample.java:276-280 | On a canonical dotted quad, `isInternalIP` holds iff the address is in an RFC 1918 section 3 block |
| `PrivateHosts.Block172Edges` | examples/python/cluster_managed_identity_example.py:104-119 | 172.15.0.1 and 172.32.0.1 are not internal; 172.16.0.1 and 172.31.255.255 are |
| `PrivateHosts.TextExamples` | examples/python/cluster_managed_identity_example.py:103 | The test is on text: `10.example` is internal, `100.64.0.1` is not |
| `PrivateHosts.NeighbourBlocks` | examples/java-jedis/src/main/java/com/example/ClusterManagedIdentityExample.java:272-283 | 9.255.255.255, 11.0.0.1, 192.167.255.255 and 192.169.0.1 are not internal |
| `PrivateHosts.InternalIsBroad` | examples/python/user_assigned_managed_identity_example.py:69 | Every host the 18 prefixes match, the broad prefixes match too |
| `PrivateHosts.BroadQuad` | examples/python/system_assigned_managed_identity_example.py:67 | On a dotted quad the broad test holds iff the address is in 10/8, 172/8 or 192.168/16 |
| `PrivateHosts.BroadOnlyExamples` | examples/python/user_assigned_managed_identity_example.py:67-69 | 172.0.0.1 and 172.200.1.1 pass only the broad test; 192.169.0.1 passes neither |
| `AddressRemap.RemapKeepsPort` | examples/python/cluster_managed_identity_example.py:100-123 | The port is kept; an internal host becomes the public hostname; any other address is returned unchanged |
| `AddressRemap.RemapLeavesNoInternalHost` | examples/python/cluster_managed_identity_example.py:120-122 | If the public hostname is not internal-looking, no remapped host is internal |
| `AddressRemap.RemapIdempotent` | examples/java-jedis/src/main/java/com/example/ClusterManagedIdentityExample.java:256-265 | The mapper applied twice equals applied once when the public hostname is not internal-looking |
| `AddressRemap.RemapDottedQuad` | examples/java-jedis/src/main/java/com/example/ClusterManagedIdentityExample.java:260-264 | On a dotted quad the mapper moves exactly the RFC 1918 addresses, keeping the port |
| `AddressRemap.RemapExamples` | examples/java-lettuce/src/main/java/com/example/ClusterManagedIdentityExample.java:125-131 | 172.15.0.1 and 172.32.0.1 stay; 172.16.0.1, 172.31.255.255 and `10.example` move; `100.64.0.1` stays |
| `AddressRemap.RemapNodeAddresses` | examples/java-lettuce/src/main/java/com/example/ClusterManagedIdentityExample.java:121-132 | Node 10.0.2.4:8500 maps to (public hostname, 8500); 203.0.113.5:10000 is unchanged |
| `AddressRemap.RemapBroadKeepsPort` | examples/python/user_assigned_managed_identity_example.py:67-71 | The port is kept; a broadly private host becomes the public hostname; any other address is returned unchanged |
| `AddressRemap.RemapBroadIdempotent` | examples/python/system_assigned_managed_identity_example.py:65-69 | Remapping twice equals once when the public hostname matches none of the three prefixes |
| `AddressRemap.RemapBroadCoversRemap` | examples/python/user_assigned_managed_identity_example.py:69-70 | Where the 18-prefix remap moves an address, the broad remap moves it to the same place |
| `AddressRemap.RemapBroadDottedQuad` | examples/python/system_assigned_managed_identity_example.py:66-69 | On a dotted quad the broad remap moves all of 10/8, 172/8 and 192.168/16, keeping the port |
| `AddressRemap.BroadOnlyAddresses` | examples/python/user_assigned_managed_identity_example.py:69-71 | On 172.0.0.1 and 172.200.1.1 the two remaps disagree; 192.169.0.1 stays |
| `SpringClusterConfig.RedisClusterConfig.MappingFunction` | examples/java-lettuce-springboot/src/main/java/com/example/config/RedisClusterConfig.java:124-153 | The new `cacheIP` and the result are those of one call, given the lookup answer |
| `SpringClusterConfig.FailureLeavesCacheUnset` | examples/java-lettuce-springboot/src/main/java/com/example/config/RedisClusterConfig.java:126-134 | A call fails exactly when the cache is unset and the lookup gives no address; the cache then stays unset |
| `SpringClusterConfig.CacheSetOnce` | examples/java-lettuce-springboot/src/main/java/com/example/config/RedisClusterConfig.java:126-130 | A call that finds `cacheIP` set leaves it unchanged |
| `SpringClusterConfig.CacheIsFirstAddress` | examples/java-lettuce-springboot/src/main/java/com/example/config/RedisClusterConfig.java:124-135 | Over a sequence of calls made one after another, starting unset, the cache holds the first address of the first successful lookup |
| `SpringClusterConfig.MapCachedHost` | examples/java-lettuce-springboot/src/main/java/com/example/config/RedisClusterConfig.java:137-152 | The port is kept; the host becomes `redisHostname` iff it is the cached IP, is private, or already is the hostname; otherwise the address is unchanged |
| `SpringClusterConfig.MapCachedIsRemap` | examples/java-lettuce-springboot/src/main/java/com/example/config/RedisClusterConfig.java:146-177 | Away from the cached IP the mapping is the 18-prefix remap |
| `SpringClusterConfig.MapCachedIdempotent` | examples/java-lettuce-springboot/src/main/java/com/example/config/RedisClusterConfig.java:142-149 | Mapping twice equals mapping once, unconditionally |
| `SpringRedisConfig.ToLowerAsciiSame` | examples/java-lettuce-springboot/src/main/java/com/example/config/RedisConfig.java:141 | Two characters fold to the same lower case iff they are equal or differ only in ASCII case |
| `SpringRedisConfig.OssClusterSpellings` | examples/java-lettuce-springboot/src/main/java/com/example/config/RedisConfig.java:232 | Any capitalisation of `OSSCluster` selects OSS mode; the default `EnterpriseCluster`, `OSS-Cluster` and the empty string do not |
| `SpringRedisConfig.IsOssClusterIgnoresCase` | examples/java-lettuce-springboot/src/main/java/com/example/config/RedisConfig.java:253 | The policy test does not depend on the case of the configured value |
| `SpringRedisConfig.ExactlyOneClient` | examples/java-lettuce-springboot/src/main/java/com/example/config/RedisConfig.java:139-262 | Exactly one of `redisClient` and `redisClusterClient` is non-null; the mapping resolver is installed iff the cluster client is |
| `SpringRedisConfig.ResolveHostShape` | examples/java-lettuce-springboot/src/main/java/com/example/config/RedisConfig.java:152-159 | The port is kept; the host becomes `redisHostname` iff it is private or equals it, and stays otherwise |
| `SpringRedisConfig.ResolveHostIdempotent` | examples/java-lettuce-springboot/src/main/java/com/example/config/RedisConfig.java:155-156 | The lambda is idempotent with no condition on the hostname |
| `SpringRedisConfig.ResolveHostIsRemap` | examples/java-lettuce-springboot/src/main/java/com/example/config/RedisConfig.java:155-175 | The lambda equals the 18-prefix remap of the other cluster examples |
| `SpringRedisConfig.UnknownAuthTypeFails` | examples/java-lettuce-springboot/src/main/java/com/example/config/RedisConfig.java:88-121 | The switch fails exactly for an `authType` outside the three known strings, with message `Unknown auth type: <type>` |
| `SpringRedisConfig.AuthScopes` | examples/java-lettuce-springboot/src/main/java/com/example/config/RedisConfig.java:92-117 | Each configuration asks for one Redis scope; the service principal uses `/.default` and the tenant's authority |
| `SpringRedisConfig.Defaults` | examples/java-lettuce-springboot/src/main/java/com/example/config/RedisConfig.java:53-60 | The default properties give a user-assigned identity, the Enterprise policy, a standard client and no mapping resolver |
| `GoClusterDialer.ErrorOnlyWhenSplitFails` | examples/go/cluster_managed_identity_example.go:85-108 | An address that does not split is an error naming it, before any dial; otherwise the server name is always the public hostname |
| `GoClusterDialer.DialsRemappedAddress` | examples/go/cluster_managed_identity_example.go:91-98 | The dialled host and port are the 18-prefix remap of the split address, joined |
| `GoClusterDialer.DialledAddressSplits` | examples/go/cluster_managed_identity_example.go:85-98 | When split undoes join on plain pairs (no `:`, `[` or `]` in host or port), and the public hostname and the split address are plain, the dialled address splits into the chosen host and the original port string |

## Left out

- Credential acquisition is not modelled: Entra ID builders, `AuthXManager`, the identity providers and the metadata-service token fetch. These are foreign libraries and network calls. `SpringRedisConfig.AuthConfigFor` models only which configuration the `authType` switch builds.
- Environment loading is not modelled. `get_config`, `getEnvOrDefault` and the `System.getenv` checks read process state and only test for non-empty values.
- The demo command sequences, the `main` bodies and `RedisTestService` are Redis round trips through client libraries.
- `TokenValidationService` is not modelled. Its clock-skew check depends on an HTTP header and the wall clock.
- TLS and sockets are not modelled: the trust-all socket factory and the TLS dial. The Go model stops at the address and server name it would dial.
- `GoClusterDialer.DialledAddressSplits`: the round trip is assumed only for plain pairs, because it fails for others: `JoinHostPort("h", "1:2")` gives `h:1:2`, which `SplitHostPort` rejects, and a host containing `[` or `]` is rejected too. Hosts containing `:` (IPv6 addresses, which `JoinHostPort` brackets) fall outside the same premise, so the lemma says nothing about them.
- Host resolution is not modelled. `net.SplitHostPort` / `net.JoinHostPort` are abstract parameters. The DNS lookup of `RedisClusterConfig` is an input to the call.
- The logging and printing inside the remap functions, and the printed report of the slot script, are not modelled. None of them affects a returned value.
- The constant mapping of `ClusterClientExample` and the non-cluster examples are not modelled. The Go user- and system-assigned examples install no remap, so there is nothing to model there.
- `SpringClusterConfig.RedisClusterConfig.MappingFunction`: calls are modelled one after another. `cacheIP` is neither volatile nor synchronised and the check-then-set is not atomic, so calls that overlap while it is still unset can each resolve and write it, the last write winning, and a thread may also read a stale `null`. `CacheSetOnce` and `CacheIsFirstAddress` hold only for calls that do not overlap.
- `SpringClusterConfig.RedisClusterConfig.MappingFunction`: a lookup answer with no address is modelled as the error `NoAddress`, because the function indexes `addresses[0]` without a check. The model does not say whether the JVM resolver can return an empty array.
- `SpringRedisConfig.IsOssCluster`: `equalsIgnoreCase` is modelled with ASCII case folding only. Java also folds some non-ASCII letters onto the letters of `OSSCluster`: `ſ` (U+017F, LATIN SMALL LETTER LONG S) upper-cases to `S`, so `equalsIgnoreCase` accepts `OſſCluster`, which the model rejects.
- `SlotCalculator.FindCrossShardTags`: the loop bound is a parameter. The properties are proved for every bound, and the concrete outcome for every bound of at least 4; `ScriptSearchOutcome` states it for the script's 1000. The tuple printing that follows is not modelled.

## Findings

| source | as written | input that shows it | evidently intended | confidence | as-written member | corrected member |
|---|---|---|---|---|---|---|
| scripts/calculate_slots.py:62 | the test key is printed as `test:{{ tag }}:data`; four braces in the f-string print two | tag `slot1`, listed under shard 1 with slot 12289: the printed key hashes `{ slot1 ` and lands in slot 2796, on shard 0 | `test:{tag}:data`, which lands in the slot of its tag | medium, not executed | `SlotCalculator.PrintedKeyOnOtherShard` | `SlotCalculator.TestKeySlot` |
| scripts/calculate_slots.py:34-35 | `slot // (16384 // num_shards)` gives the slots left over by the division shard numbers from `num_shards` upward, more than one when the remainder is at least `16384 // num_shards` | `num_shards = 3`: slot 16383 gets shard 3 of 3; `num_shards = 200`: slots 16200-16383 get shards 200, 201 and 202 | every slot owned by one of shards `0..num_shards-1`, the last absorbing the remainder | low, not executed (the script only uses two shards) | `SlotCalculator.ThreeShardsOverflow` | `SlotCalculator.ShardOfInRange` |
