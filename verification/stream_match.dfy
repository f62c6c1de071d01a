/** Matching a byte pattern in a stream that arrives in blocks: the query counter of
    `smoke-terminal-bench.py` and the readiness driver of `compat-pty.py`. */
module StreamMatch {
  import opened Common

  type Byte = b: int | 0 <= b < 256

  type Bytes = seq<Byte>

  // ---- occurrences ----

  predicate OccursAt(s: Bytes, p: Bytes, i: int) {
    0 <= i <= |s| - |p| && forall k | 0 <= k < |p| :: s[i + k] == p[k]
  }

  predicate Contains(s: Bytes, p: Bytes) {
    exists i | 0 <= i <= |s| - |p| :: OccursAt(s, p, i)
  }

  /** The places where the pattern occurs, overlapping or not. */
  function Places(s: Bytes, p: Bytes): set<int> {
    set i | 0 <= i <= |s| - |p| && OccursAt(s, p, i)
  }

  /** The number of occurrences, counted at their ends. */
  function Count(s: Bytes, p: Bytes): nat {
    if s == [] then 0
    else Count(s[..|s| - 1], p) + if OccursAt(s, p, |s| - |p|) then 1 else 0
  }

  lemma CountLast(s: Bytes, p: Bytes)
    requires s != []
    ensures Count(s, p) == Count(s[..|s| - 1], p) + if OccursAt(s, p, |s| - |p|) then 1 else 0
  {
  }

  lemma OccursInPrefix(s: Bytes, p: Bytes, n: nat, i: int)
    requires n <= |s| && i + |p| <= n
    ensures OccursAt(s[..n], p, i) <==> OccursAt(s, p, i)
  {
  }

  lemma OccursInSuffix(s: Bytes, p: Bytes, c: nat, i: int)
    requires c <= |s| && c <= i
    ensures OccursAt(s[c..], p, i - c) <==> OccursAt(s, p, i)
  {
  }

  lemma ContainsPrefix(s: Bytes, x: Bytes, p: Bytes)
    requires Contains(s, p)
    ensures Contains(s + x, p)
  {
    var i :| 0 <= i <= |s| - |p| && OccursAt(s, p, i);
    assert (s + x)[..|s|] == s;
    OccursInPrefix(s + x, p, |s|, i);
  }

  lemma ContainsSuffix(s: Bytes, p: Bytes, c: nat)
    requires c <= |s| && Contains(s[c..], p)
    ensures Contains(s, p)
  {
    var i :| 0 <= i <= |s[c..]| - |p| && OccursAt(s[c..], p, i);
    OccursInSuffix(s, p, c, c + i);
  }

  lemma NewOccurrence(s: Bytes, x: Bytes, p: Bytes, c: nat)
    requires c <= |s| && (c == 0 || c <= |s| - |p| + 1) && Contains(s + x, p) && !Contains(s, p)
    ensures Contains(s[c..] + x, p)
  {
    var i :| 0 <= i <= |s + x| - |p| && OccursAt(s + x, p, i);
    assert (s + x)[..|s|] == s && (s + x)[c..] == s[c..] + x;
    if i + |p| <= |s| { OccursInPrefix(s + x, p, |s|, i); }
    OccursInSuffix(s + x, p, c, i);
    assert OccursAt(s[c..] + x, p, i - c);
  }

  /** Looking at a long enough tail and the new data finds exactly what looking at everything would. */
  lemma ContainsIsChunkFree(s: Bytes, x: Bytes, p: Bytes, c: nat)
    requires c <= |s| && (c == 0 || c <= |s| - |p| + 1)
    ensures Contains(s + x, p) <==> Contains(s, p) || Contains(s[c..] + x, p)
  {
    if Contains(s, p) {
      ContainsPrefix(s, x, p);
    } else if Contains(s + x, p) {
      NewOccurrence(s, x, p, c);
    }
    if Contains(s[c..] + x, p) {
      assert (s + x)[c..] == s[c..] + x;
      ContainsSuffix(s + x, p, c);
    }
  }

  lemma PlacesStep(s: Bytes, p: Bytes)
    requires s != [] && p != []
    ensures var last := |s| - |p|; var shorter := s[..|s| - 1];
            last !in Places(shorter, p) && Places(s, p) == if OccursAt(s, p, last) then Places(shorter, p) + {last} else Places(shorter, p)
  {
  }

  lemma {:induction false} CountIsCardinality(s: Bytes, p: Bytes)
    requires p != []
    ensures Count(s, p) == |Places(s, p)|
    decreases |s|
  {
    if s == [] {
      assert Places(s, p) == {};
    } else {
      CountIsCardinality(s[..|s| - 1], p);
      PlacesStep(s, p);
    }
  }

  lemma {:induction false} CountNone(s: Bytes, p: Bytes)
    requires !Contains(s, p)
    ensures Count(s, p) == 0
    decreases |s|
  {
    if s != [] {
      var shorter := s[..|s| - 1];
      forall i | 0 <= i <= |shorter| - |p| ensures !OccursAt(shorter, p, i) {
        OccursInPrefix(s, p, |s| - 1, i);
      }
      CountNone(shorter, p);
    }
  }

  predicate NoneCrosses(s: Bytes, p: Bytes, c: nat) {
    forall i | 0 <= i < c < i + |p| :: !OccursAt(s, p, i)
  }

  lemma NoneCrossesEarlier(s: Bytes, p: Bytes, c: nat, n: nat)
    requires c <= n <= |s| && NoneCrosses(s, p, c)
    ensures NoneCrosses(s[..n], p, c)
  {
    forall i | 0 <= i < c < i + |p| ensures !OccursAt(s[..n], p, i) {
      if i + |p| <= n { OccursInPrefix(s, p, n, i); }
    }
  }

  lemma LastAfterCut(s: Bytes, p: Bytes, c: nat)
    requires c < |s| && p != [] && NoneCrosses(s, p, c)
    ensures OccursAt(s, p, |s| - |p|) <==> OccursAt(s[c..], p, |s[c..]| - |p|)
  {
  }

  /** Cutting where no occurrence crosses loses none. */
  lemma {:induction false} CountSplits(s: Bytes, p: Bytes, c: nat)
    requires c <= |s| && p != [] && NoneCrosses(s, p, c)
    ensures Count(s, p) == Count(s[..c], p) + Count(s[c..], p)
    decreases |s|
  {
    if c == |s| {
      assert s[..c] == s && s[c..] == [];
    } else {
      var n := |s| - 1;
      NoneCrossesEarlier(s, p, c, n);
      CountSplits(s[..n], p, c);
      LastAfterCut(s, p, c);
      assert s[..n][..c] == s[..c];
      assert s[..n][c..] == s[c..][..n - c];
    }
  }

  // ---- patterns that do not overlap themselves ----

  predicate BorderFree(p: Bytes) {
    forall k | 0 < k < |p| :: !Border(p, k)
  }

  /** What follows `k` is also how the pattern starts. */
  predicate Border(p: Bytes, k: nat) {
    forall i | 0 <= i < |p| - k :: p[k + i] == p[i]
  }

  /** An occurrence may still start at `i`, as far as the stream goes. */
  predicate Alive(s: Bytes, p: Bytes, i: nat) {
    i < |s| && forall k | 0 <= k < |p| && i + k < |s| :: s[i + k] == p[k]
  }

  /** No occurrence can ever cross the cut at `c`, however the stream goes on. */
  predicate Safe(s: Bytes, p: Bytes, c: nat) {
    forall i | 0 <= i < c < i + |p| :: !Alive(s, p, i)
  }

  lemma AliveEarlier(s: Bytes, x: Bytes, p: Bytes, i: nat)
    requires i < |s| && Alive(s + x, p, i)
    ensures Alive(s, p, i)
  {
  }

  lemma SafeLater(s: Bytes, x: Bytes, p: Bytes, c: nat)
    requires c <= |s| && Safe(s, p, c)
    ensures Safe(s + x, p, c)
  {
    forall i | 0 <= i < c < i + |p| ensures !Alive(s + x, p, i) {
      if Alive(s + x, p, i) { AliveEarlier(s, x, p, i); }
    }
  }

  lemma SafeMeansNone(s: Bytes, p: Bytes, c: nat)
    requires p != [] && Safe(s, p, c)
    ensures NoneCrosses(s, p, c)
  {
    forall i | 0 <= i < c < i + |p| ensures !OccursAt(s, p, i) {
      assert !Alive(s, p, i);
    }
  }

  lemma SafeSplits(s: Bytes, p: Bytes, c: nat)
    requires c <= |s| && p != [] && Safe(s, p, c)
    ensures Count(s, p) == Count(s[..c], p) + Count(s[c..], p)
  {
    SafeMeansNone(s, p, c);
    CountSplits(s, p, c);
  }

  /** The end of an occurrence is a safe place to cut. */
  lemma SafeAfterOccurrence(s: Bytes, p: Bytes, i: nat)
    requires BorderFree(p) && OccursAt(s, p, i)
    ensures Safe(s, p, i + |p|)
  {
    var c := i + |p|;
    forall k | 0 <= k < c < k + |p| ensures !Alive(s, p, k) {
      assert !Border(p, k - i);
    }
  }

  /** Without an occurrence after a safe cut, all but the last bytes too few for one can be dropped. */
  lemma SafeTail(s: Bytes, p: Bytes, c: nat)
    requires c <= |s| - (|p| - 1) && p != [] && Safe(s, p, c) && !Contains(s[c..], p)
    ensures Safe(s, p, |s| - (|p| - 1))
  {
    var d := |s| - (|p| - 1);
    forall k | 0 <= k < d < k + |p| ensures !Alive(s, p, k) {
      if k < c {
        assert k < c < k + |p|;
      } else {
        OccursInSuffix(s, p, c, k);
      }
    }
  }

  // ---- counting terminal queries ----

  predicate First(s: Bytes, p: Bytes, i: nat) {
    OccursAt(s, p, i) && forall k | 0 <= k < i :: !OccursAt(s, p, k)
  }

  /** The first occurrence, if any. */
  function Find(s: Bytes, p: Bytes, from: nat): (r: Option<nat>)
    ensures r.Some? ==> r.value + |p| <= |s|
    decreases |s| - from
  {
    if from + |p| > |s| then None
    else if OccursAt(s, p, from) then Some(from)
    else Find(s, p, from + 1)
  }

  lemma {:induction false} FindMeans(s: Bytes, p: Bytes, from: nat)
    requires forall k | 0 <= k < from :: !OccursAt(s, p, k)
    ensures var r := Find(s, p, from); if r.Some? then First(s, p, r.value) else !Contains(s, p)
    decreases |s| - from
  {
    if from + |p| <= |s| && !OccursAt(s, p, from) { FindMeans(s, p, from + 1); }
  }

  function Concat(blocks: seq<Bytes>): Bytes {
    if blocks == [] then [] else Concat(blocks[..|blocks| - 1]) + blocks[|blocks| - 1]
  }

  /** What the counter keeps between blocks: everything in `done` has been counted, and no occurrence can cross
      its end. */
  predicate Counted(stream: Bytes, p: Bytes, done: Bytes, pending: Bytes, replies: nat) {
    stream == done + pending && Safe(stream, p, |done|) && replies == Count(done, p)
  }

  lemma NoneBeforeFirst(s: Bytes, p: Bytes, i: nat)
    requires p != [] && First(s, p, i)
    ensures !Contains(s[..i + |p| - 1], p)
  {
    var n := i + |p| - 1;
    forall k | 0 <= k <= |s[..n]| - |p| ensures !OccursAt(s[..n], p, k) {
      OccursInPrefix(s, p, n, k);
    }
  }

  lemma CountBeforeFirst(s: Bytes, p: Bytes, i: nat)
    requires p != [] && First(s, p, i)
    ensures Count(s[..i + |p| - 1], p) == 0
  {
    NoneBeforeFirst(s, p, i);
    CountNone(s[..i + |p| - 1], p);
  }

  lemma CountFirst(s: Bytes, p: Bytes, i: nat)
    requires p != [] && First(s, p, i)
    ensures Count(s[..i + |p|], p) == 1
  {
    var head := s[..i + |p|];
    CountLast(head, p);
    CountBeforeFirst(s, p, i);
    assert head[..|head| - 1] == s[..i + |p| - 1];
    OccursInPrefix(s, p, i + |p|, i);
  }

  lemma CountAppended(s: Bytes, x: Bytes, p: Bytes)
    requires p != [] && NoneCrosses(s + x, p, |s|)
    ensures Count(s + x, p) == Count(s, p) + Count(x, p)
  {
    CountSplits(s + x, p, |s|);
    assert (s + x)[..|s|] == s && (s + x)[|s|..] == x;
  }

  /** Moving a head with `more` occurrences to what is done. */
  lemma CountedHead(stream: Bytes, p: Bytes, done: Bytes, pending: Bytes, replies: nat, n: nat, more: nat)
    requires p != [] && Counted(stream, p, done, pending, replies)
    requires n <= |pending| && Count(pending[..n], p) == more && Safe(stream, p, |done| + n)
    ensures Counted(stream, p, done + pending[..n], pending[n..], replies + more)
  {
    NoneCrossesHead(done, pending, p, n);
    CountAppended(done, pending[..n], p);
    assert (done + pending[..n]) + pending[n..] == done + pending;
  }

  lemma SafeAfterReply(done: Bytes, pending: Bytes, p: Bytes, i: nat)
    requires BorderFree(p) && OccursAt(pending, p, i)
    ensures Safe(done + pending, p, |done| + i + |p|)
  {
    assert (done + pending)[|done|..] == pending;
    OccursInSuffix(done + pending, p, |done|, |done| + i);
    SafeAfterOccurrence(done + pending, p, |done| + i);
  }

  lemma SafeBeforeTail(done: Bytes, pending: Bytes, p: Bytes)
    requires p != [] && |pending| >= |p| && Safe(done + pending, p, |done|) && !Contains(pending, p)
    ensures Safe(done + pending, p, |done| + |pending| - (|p| - 1))
  {
    assert (done + pending)[|done|..] == pending;
    SafeTail(done + pending, p, |done|);
  }

  lemma NoneInHead(pending: Bytes, p: Bytes, n: nat)
    requires p != [] && n <= |pending| && !Contains(pending, p)
    ensures Count(pending[..n], p) == 0
  {
    forall k | 0 <= k <= n - |p| ensures !OccursAt(pending[..n], p, k) {
      OccursInPrefix(pending, p, n, k);
    }
    CountNone(pending[..n], p);
  }

  lemma NoneCrossesHead(done: Bytes, pending: Bytes, p: Bytes, n: nat)
    requires p != [] && n <= |pending| && Safe(done + pending, p, |done|)
    ensures NoneCrosses(done + pending[..n], p, |done|)
  {
    SafeMeansNone(done + pending, p, |done|);
    NoneCrossesEarlier(done + pending, p, |done|, |done| + n);
    assert (done + pending)[..|done| + n] == done + pending[..n];
  }

  lemma CountedAll(stream: Bytes, p: Bytes, done: Bytes, pending: Bytes, replies: nat)
    requires p != [] && Counted(stream, p, done, pending, replies) && !Contains(pending, p)
    ensures replies == Count(stream, p)
  {
    assert stream[..|done|] == done && stream[|done|..] == pending;
    SafeSplits(stream, p, |done|);
    CountNone(pending, p);
  }

  lemma CountedMore(stream: Bytes, block: Bytes, p: Bytes, done: Bytes, pending: Bytes, replies: nat)
    requires Counted(stream, p, done, pending, replies)
    ensures Counted(stream + block, p, done, pending + block, replies)
  {
    SafeLater(stream, block, p, |done|);
    assert (done + pending) + block == done + (pending + block);
  }

  // ---- the loops ----

  /** What is left after a reply to every occurrence that is complete, and the number of replies. */
  function Drained(pending: Bytes, p: Bytes): (Bytes, nat)
    requires p != []
    decreases |pending|
  {
    var found := Find(pending, p, 0);
    if found.None? then (pending, 0)
    else
      var (rest, replies) := Drained(pending[found.value + |p|..], p);
      (rest, replies + 1)
  }

  /** The last bytes, one fewer than the pattern has. */
  function Kept(pending: Bytes, p: Bytes): Bytes
    requires p != []
  {
    if |pending| >= |p| then pending[|pending| - (|p| - 1)..] else pending
  }

  /** What is kept after the blocks before `n`, and the replies sent. */
  function AfterBlocks(blocks: seq<Bytes>, n: nat, p: Bytes): (Bytes, nat)
    requires p != [] && n <= |blocks|
  {
    if n == 0 then ([], 0)
    else
      var (kept, earlier) := AfterBlocks(blocks, n - 1, p);
      var (rest, replies) := Drained(kept + blocks[n - 1], p);
      (Kept(rest, p), earlier + replies)
  }

  /** The inner loop. */
  method Drain(block: Bytes, p: Bytes) returns (pending: Bytes, replies: nat)
    requires p != []
    ensures (pending, replies) == Drained(block, p)
  {
    pending, replies := block, 0;
    var found: Option<nat> := Find(pending, p, 0);
    while found.Some?
      invariant found == Find(pending, p, 0)
      invariant Drained(block, p) == (Drained(pending, p).0, replies + Drained(pending, p).1)
      decreases |pending|
    {
      pending, replies := pending[found.value + |p|..], replies + 1;
      found := Find(pending, p, 0);
    }
  }

  lemma ReplyCounts(stream: Bytes, p: Bytes, done: Bytes, pending: Bytes, replies: nat) returns (n: nat)
    requires p != [] && BorderFree(p) && Counted(stream, p, done, pending, replies) && Find(pending, p, 0).Some?
    ensures n == Find(pending, p, 0).value + |p|
    ensures Counted(stream, p, done + pending[..n], pending[n..], replies + 1)
  {
    var i := Find(pending, p, 0).value;
    n := i + |p|;
    FindMeans(pending, p, 0);
    CountFirst(pending, p, i);
    SafeAfterReply(done, pending, p, i);
    CountedHead(stream, p, done, pending, replies, n, 1);
  }

  lemma {:induction false} DrainedHasNone(pending: Bytes, p: Bytes)
    requires p != []
    ensures !Contains(Drained(pending, p).0, p)
    decreases |pending|
  {
    var found := Find(pending, p, 0);
    if found.None? { FindMeans(pending, p, 0); } else { DrainedHasNone(pending[found.value + |p|..], p); }
  }

  /** Each reply counts one occurrence. */
  lemma {:induction false} DrainedCounts(stream: Bytes, p: Bytes, done: Bytes, pending: Bytes, earlier: nat)
    returns (done': Bytes, rest: Bytes, replies: nat)
    requires p != [] && BorderFree(p) && Counted(stream, p, done, pending, earlier)
    ensures (rest, replies) == (Drained(pending, p).0, earlier + Drained(pending, p).1)
    ensures Counted(stream, p, done', rest, replies)
    decreases |pending|
  {
    if Find(pending, p, 0).None? {
      done', rest, replies := done, pending, earlier;
    } else {
      var n := ReplyCounts(stream, p, done, pending, earlier);
      done', rest, replies := DrainedCounts(stream, p, done + pending[..n], pending[n..], earlier + 1);
    }
  }

  /** Keeping only the last bytes of what holds no occurrence. */
  lemma KeptCounts(stream: Bytes, p: Bytes, done: Bytes, pending: Bytes, replies: nat) returns (done': Bytes)
    requires p != [] && Counted(stream, p, done, pending, replies) && !Contains(pending, p)
    ensures Counted(stream, p, done', Kept(pending, p), replies)
  {
    if |pending| < |p| { return done; }
    var n := |pending| - (|p| - 1);
    NoneInHead(pending, p, n);
    SafeBeforeTail(done, pending, p);
    CountedHead(stream, p, done, pending, replies, n, 0);
    done' := done + pending[..n];
  }

  lemma BlockCounts(stream: Bytes, block: Bytes, p: Bytes, done: Bytes, kept: Bytes, earlier: nat)
    returns (done': Bytes)
    requires p != [] && BorderFree(p) && Counted(stream, p, done, kept, earlier)
    ensures var (rest, replies) := Drained(kept + block, p);
            && Counted(stream + block, p, done', Kept(rest, p), earlier + replies)
            && earlier + replies == Count(stream + block, p)
  {
    CountedMore(stream, block, p, done, kept, earlier);
    var middle, rest, replies := DrainedCounts(stream + block, p, done, kept + block, earlier);
    DrainedHasNone(kept + block, p);
    CountedAll(stream + block, p, middle, rest, replies);
    done' := KeptCounts(stream + block, p, middle, rest, replies);
  }

  /** The replies sent are the occurrences in the blocks taken, and no later one is lost. */
  lemma {:induction false} AfterCounts(blocks: seq<Bytes>, n: nat, p: Bytes) returns (done: Bytes)
    requires p != [] && BorderFree(p) && n <= |blocks|
    ensures Counted(Concat(blocks[..n]), p, done, AfterBlocks(blocks, n, p).0, AfterBlocks(blocks, n, p).1)
    ensures AfterBlocks(blocks, n, p).1 == Count(Concat(blocks[..n]), p)
  {
    if n == 0 { return []; }
    var earlier, block := Concat(blocks[..n - 1]), blocks[n - 1];
    assert Concat(blocks[..n]) == earlier + block by { assert blocks[..n][..n - 1] == blocks[..n - 1]; }
    var (kept, replies) := AfterBlocks(blocks, n - 1, p);
    done := AfterCounts(blocks, n - 1, p);
    done := BlockCounts(earlier, block, p, done, kept, replies);
  }

  /** However the stream is split into blocks, one reply is sent for each occurrence in the whole of it. */
  method CountReplies(blocks: seq<Bytes>, p: Bytes) returns (replies: nat)
    requires p != [] && BorderFree(p)
    ensures replies == |Places(Concat(blocks), p)|
  {
    var pending: Bytes := [];
    replies := 0;
    for n := 0 to |blocks|
      invariant (pending, replies) == AfterBlocks(blocks, n, p)
    {
      var more: nat;
      pending, more := Drain(pending + blocks[n], p);
      pending, replies := Kept(pending, p), replies + more;
    }
    AllCounted(blocks, p);
  }

  lemma AllCounted(blocks: seq<Bytes>, p: Bytes)
    requires p != [] && BorderFree(p)
    ensures AfterBlocks(blocks, |blocks|, p).1 == |Places(Concat(blocks), p)|
  {
    var _ := AfterCounts(blocks, |blocks|, p);
    assert blocks[..|blocks|] == blocks;
    CountIsCardinality(Concat(blocks), p);
  }

  const QUERY: Bytes := [27, 91, 54, 110]

  /** The terminal query of the benchmark is such a pattern, so its loop, which keeps three bytes, counts it. */
  lemma QueryIsBorderFree()
    ensures BorderFree(QUERY) && |QUERY| - 1 == 3
  {
    forall k | 0 < k < 4 ensures !Border(QUERY, k) {
      assert QUERY[k] != QUERY[0];
    }
  }
}
