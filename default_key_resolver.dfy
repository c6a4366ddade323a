/** The default key resolver: which partition (shard) an aggregate's records
    live in, and the sort key of each record. */
module DefaultKeyResolver {
  import opened Types
  import opened NumberFormat
  import opened UserAccountIds

  const TWO_POW_31: int := 0x8000_0000
  const TWO_POW_32: int := 0x1_0000_0000

  /** The UTF-16 code units of one character, as `charCodeAt` reads them:
      characters outside the Basic Multilingual Plane are a surrogate pair. */
  function CharCodeUnits(c: char): (units: seq<int>)
    ensures 1 <= |units| <= 2
    ensures forall i :: 0 <= i < |units| ==> 0 <= units[i] < 0x1_0000
  {
    var v := c as int;
    if v < 0x1_0000 then [v]
    else [0xD800 + (v - 0x1_0000) / 0x400, 0xDC00 + (v - 0x1_0000) % 0x400]
  }

  /** The UTF-16 code units of a string: `str.length` of them, `str.charCodeAt(i)` the i-th. */
  function CodeUnits(s: string): (units: seq<int>)
    ensures |units| >= |s|
  {
    if s == [] then [] else CharCodeUnits(s[0]) + CodeUnits(s[1..])
  }

  /** The rolling hash as a left fold from 0: h' = (31 * h + unit) mod 2^32. */
  function HashOfUnits(units: seq<int>): (h: nat)
    ensures h < TWO_POW_32
  {
    if units == [] then 0
    else (31 * HashOfUnits(units[..|units| - 1]) + units[|units| - 1]) % TWO_POW_32
  }

  /** The 32-bit unsigned hash of a string, what `hashString` returns. */
  function Hash(s: string): (h: nat)
    ensures h < TWO_POW_32
    ensures s == "" ==> h == 0
  {
    HashOfUnits(CodeUnits(s))
  }

  /** ECMAScript ToInt32: wrap an integer into the signed 32-bit range. */
  function ToInt32(x: int): (r: int)
    ensures -TWO_POW_31 <= r < TWO_POW_31
    ensures r % TWO_POW_32 == x % TWO_POW_32
  {
    var m := x % TWO_POW_32;
    if m >= TWO_POW_31 then m - TWO_POW_32 else m
  }

  /** ECMAScript ToUint32, what `x >>> 0` yields. */
  function ToUint32(x: int): (r: nat)
    ensures r < TWO_POW_32
  {
    x % TWO_POW_32
  }

  lemma ModOfDifference(x: int, y: int)
    requires x % TWO_POW_32 == y % TWO_POW_32
    ensures (x - y) % TWO_POW_32 == 0
  {
    var qx, qy := x / TWO_POW_32, y / TWO_POW_32;
    assert x == qx * TWO_POW_32 + x % TWO_POW_32;
    assert y == qy * TWO_POW_32 + y % TWO_POW_32;
    assert x - y == (qx - qy) * TWO_POW_32;
  }

  lemma ModAddMultiple(a: int, k: int)
    ensures (a + k * TWO_POW_32) % TWO_POW_32 == a % TWO_POW_32
  {
    var q := a / TWO_POW_32;
    assert a + k * TWO_POW_32 == (q + k) * TWO_POW_32 + a % TWO_POW_32;
  }

  /** Congruence of the JavaScript step `(hash << 5) - hash + unit` with `31 * hash + unit`. */
  lemma StepCongruent(hash: int, unit: int)
    requires -TWO_POW_31 <= hash < TWO_POW_31
    ensures ToUint32(ToInt32(ToInt32(hash) * 32) - hash + unit)
         == (31 * ToUint32(hash) + unit) % TWO_POW_32
  {
    var shifted := ToInt32(ToInt32(hash) * 32);
    assert ToInt32(hash) == hash;
    ModOfDifference(shifted, hash * 32);
    var k := (shifted - hash * 32) / TWO_POW_32;
    assert shifted - hash * 32 == k * TWO_POW_32;
    ModAddMultiple(31 * hash + unit, k);
    assert shifted - hash + unit == (31 * hash + unit) + k * TWO_POW_32;
    var j := hash / TWO_POW_32;
    assert hash == j * TWO_POW_32 + ToUint32(hash);
    ModAddMultiple(31 * ToUint32(hash) + unit, 31 * j);
    assert 31 * hash + unit == (31 * ToUint32(hash) + unit) + (31 * j) * TWO_POW_32;
  }

  /** `hashString`: the loop of the source, with JavaScript's 32-bit operators
      written out, computes the left fold `Hash`. */
  method HashString(str: string) returns (h: nat)
    ensures h == Hash(str)
  {
    var units := CodeUnits(str);
    var hash: int := 0;
    for i := 0 to |units|
      invariant -TWO_POW_31 <= hash < TWO_POW_31
      invariant ToUint32(hash) == HashOfUnits(units[..i])
    {
      var unit := units[i];   // str.charCodeAt(i)
      StepCongruent(hash, unit);
      assert units[..i + 1][..i] == units[..i];
      hash := ToInt32(ToInt32(hash) * 32) - hash + unit;   // (hash << 5) - hash + char
      hash := ToInt32(hash);                              // hash & hash
    }
    assert units[..|units|] == units;
    h := ToUint32(hash);                                  // hash >>> 0
  }

  /** The code units of a concatenation are the concatenated code units. */
  lemma {:induction false} CodeUnitsAppend(a: string, b: string)
    ensures CodeUnits(a + b) == CodeUnits(a) + CodeUnits(b)
    decreases |a|
  {
    if a != [] {
      assert (a + b)[0] == a[0];
      assert (a + b)[1..] == a[1..] + b;
      CodeUnitsAppend(a[1..], b);
    } else {
      assert a + b == b;
    }
  }

  /** One more code unit is one more step of the fold. */
  lemma HashOfUnitsSnoc(units: seq<int>, u: int)
    ensures HashOfUnits(units + [u]) == (31 * HashOfUnits(units) + u) % TWO_POW_32
  {
    var longer := units + [u];
    assert longer[..|longer| - 1] == units;
  }

  /** A Basic-Multilingual-Plane character is a single code unit. */
  lemma CodeUnitsOfBmpChar(c: char)
    requires c as int < 0x1_0000
    ensures CodeUnits([c]) == [c as int]
  {
    assert [c][1..] == [];
  }

  /** Appending one Basic-Multilingual-Plane character is one step of the fold. */
  lemma HashAppend(s: string, c: char)
    requires c as int < 0x1_0000
    ensures Hash(s + [c]) == (31 * Hash(s) + c as int) % TWO_POW_32
  {
    CodeUnitsAppend(s, [c]);
    CodeUnitsOfBmpChar(c);
    HashOfUnitsSnoc(CodeUnits(s), c as int);
  }

  /** The shard number `hash % shardCount` of JavaScript's remainder operator:
      NaN (None) for a shard count of 0, and the sign of the dividend otherwise,
      so that a negative shard count behaves like its absolute value. */
  function Shard(hash: nat, shardCount: int): (shard: Option<nat>)
    ensures shardCount == 0 <==> shard.None?
    ensures shardCount > 0 ==> shard == Some(hash % shardCount)
    ensures shard.Some? ==> shard.value < shardCount || shard.value < -shardCount
  {
    if shardCount == 0 then None
    else if shardCount > 0 then Some(hash % shardCount)
    else Some(hash % -shardCount)
  }

  /** `s` is `prefix` followed by `suffix`. */
  predicate SplitsAs(s: string, prefix: string, suffix: string) {
    |s| == |prefix| + |suffix| && s[..|prefix|] == prefix && s[|prefix|..] == suffix
  }

  /** `resolvePartitionKey`: `typeName-shard`, where the shard is the id string's hash
      modulo the shard count (printed `NaN` when the count is 0). */
  function ResolvePartitionKey(aggregateId: UserAccountId, shardCount: int): (key: string)
    ensures SplitsAs(key, aggregateId.typeName + "-",
      if shardCount == 0 then "NaN"
      else NatToString(Hash(aggregateId.AsString()) % (if shardCount < 0 then -shardCount else shardCount)))
  {
    var remainder := Shard(Hash(aggregateId.AsString()), shardCount);
    aggregateId.typeName + "-" + (if remainder.Some? then NatToString(remainder.value) else "NaN")
  }

  /** `resolveSortKey`: `typeName-value-sequenceNumber`. */
  function ResolveSortKey(aggregateId: UserAccountId, sequenceNumber: int): (key: string)
    ensures SplitsAs(key, aggregateId.typeName + "-" + aggregateId.value + "-", IntToString(sequenceNumber))
  {
    aggregateId.typeName + "-" + aggregateId.value + "-" + IntToString(sequenceNumber)
  }

  /** For a positive shard count the partition key names one of the shards 0..n-1. */
  lemma PartitionKeyNamesShard(aggregateId: UserAccountId, shardCount: int)
    requires shardCount >= 1
    ensures var shard := Hash(aggregateId.AsString()) % shardCount;
            shard < shardCount &&
            ResolvePartitionKey(aggregateId, shardCount) == "user-account-" + NatToString(shard)
  {
  }

  /** Two ids share a partition exactly when their hashes fall in the same shard. */
  lemma SamePartitionIffSameShard(a: UserAccountId, b: UserAccountId, shardCount: int)
    requires shardCount >= 1
    ensures ResolvePartitionKey(a, shardCount) == ResolvePartitionKey(b, shardCount)
        <==> Hash(a.AsString()) % shardCount == Hash(b.AsString()) % shardCount
  {
    var sa, sb := Hash(a.AsString()) % shardCount, Hash(b.AsString()) % shardCount;
    var prefix := "user-account-";
    if ResolvePartitionKey(a, shardCount) == ResolvePartitionKey(b, shardCount) {
      assert NatToString(sa) == ResolvePartitionKey(a, shardCount)[|prefix|..];
      assert NatToString(sb) == ResolvePartitionKey(b, shardCount)[|prefix|..];
      NatToStringInjective(sa, sb);
    }
  }

  /** For a fixed id, sort keys of different sequence numbers differ. */
  lemma SortKeyInjective(aggregateId: UserAccountId, s1: int, s2: int)
    ensures ResolveSortKey(aggregateId, s1) == ResolveSortKey(aggregateId, s2) <==> s1 == s2
  {
    var prefix := aggregateId.typeName + "-" + aggregateId.value + "-";
    if ResolveSortKey(aggregateId, s1) == ResolveSortKey(aggregateId, s2) {
      assert IntToString(s1) == ResolveSortKey(aggregateId, s1)[|prefix|..];
      assert IntToString(s2) == ResolveSortKey(aggregateId, s2)[|prefix|..];
      IntToStringInjective(s1, s2);
    }
  }

  /** If `a-x` equals `b-y` and `x` is the shorter tail, then `y` holds a '-'. */
  lemma DashInLongerTail(a: string, x: string, b: string, y: string)
    requires a + "-" + x == b + "-" + y
    requires |x| < |y|
    ensures y[|y| - |x| - 1] == '-'
  {
    var s := a + "-" + x;
    assert s[|s| - |x| - 1] == '-';
    assert y[|y| - |x| - 1] == s[|s| - |x| - 1];
  }

  /** If `a-x` equals `b-y` and neither `x` nor `y` holds a '-', then `a == b` and `x == y`. */
  lemma SplitAtLastDash(a: string, x: string, b: string, y: string)
    requires forall i :: 0 <= i < |x| ==> x[i] != '-'
    requires forall i :: 0 <= i < |y| ==> y[i] != '-'
    requires a + "-" + x == b + "-" + y
    ensures a == b && x == y
  {
    if |x| < |y| {
      DashInLongerTail(a, x, b, y);
      assert false;
    } else if |y| < |x| {
      DashInLongerTail(b, y, a, x);
      assert false;
    } else {
      var s := a + "-" + x;
      assert a == s[..|a|] == b;
      assert x == s[|a| + 1..] == y;
    }
  }

  /** With non-negative sequence numbers, a sort key determines both the id and
      the sequence number (the digits after the last '-' hold no '-'). */
  lemma SortKeyDeterminesIdAndSequence(a: UserAccountId, s1: nat, b: UserAccountId, s2: nat)
    ensures ResolveSortKey(a, s1) == ResolveSortKey(b, s2) <==> a == b && s1 == s2
  {
    if ResolveSortKey(a, s1) == ResolveSortKey(b, s2) {
      SplitAtLastDash(a.typeName + "-" + a.value, IntToString(s1), b.typeName + "-" + b.value, IntToString(s2));
      IntToStringInjective(s1, s2);
      var prefix := "user-account-";
      assert a.value == (a.typeName + "-" + a.value)[|prefix|..];
      assert b.value == (b.typeName + "-" + b.value)[|prefix|..];
    }
  }
}
