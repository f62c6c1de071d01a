/** Where comments and strings end, said without the scanner: by first occurrences, by the backslashes before a quote,
    and by nesting depth. */
module MaskingTokens {
  import opened Masking

  /** A line comment ends at the first newline, or with the text. */
  lemma {:induction false} LineEndMeans(s: Text, i: nat)
    requires i <= |s|
    ensures var e := LineEnd(s, i);
            (e == |s| || s[e] == '\n') && forall k :: i <= k < e ==> s[k] != '\n'
    decreases |s| - i
  {
    if i < |s| && s[i] != '\n' { LineEndMeans(s, i + 1); }
  }

  /** A raw string ends after the first quote with its number of hashes, or with the text. */
  lemma {:induction false} RawEndMeans(s: Text, j: nat, n: nat)
    requires j <= |s|
    ensures var e := RawEnd(s, j, n);
            || (e >= j + 1 + n && RawCloses(s, e - 1 - n, n) && forall k :: j <= k < e - 1 - n ==> !RawCloses(s, k, n))
            || (e == |s| && forall k :: j <= k ==> !RawCloses(s, k, n))
    decreases |s| - j
  {
    if j < |s| && !RawCloses(s, j, n) { RawEndMeans(s, j + 1, n); }
  }

  // ---- literals ----

  /** This text stands at `i`. */
  predicate Stands(s: Text, i: nat, t: Text) {
    i + |t| <= |s| && forall k | 0 <= k < |t| :: s[i + k] == t[k]
  }

  /** A run of `n` hashes and a quote at `i`. */
  predicate Fence(s: Text, i: nat, n: nat) {
    i + n < |s| && (forall k | i <= k < i + n :: s[k] == '#') && s[i + n] == '"'
  }

  lemma {:induction false} FenceIsRun(s: Text, i: nat, n: nat)
    requires i <= |s| && Fence(s, i, n)
    ensures Hashes(s, i) == n
    decreases n
  {
    if n > 0 { FenceIsRun(s, i + 1, n - 1); }
  }

  /** One of the letters of a raw string at `i`, and then `n` hashes and a quote. */
  predicate RawAt(s: Text, i: nat, letters: Text, n: nat) {
    && (letters == "r" || letters == "br" || letters == "cr")
    && Stands(s, i, letters) && Fence(s, i + |letters|, n)
  }

  /** Where a raw string opens there are such letters, hashes and a quote. */
  lemma RawIsLiteral(s: Text, i: nat)
    requires RawOpens(s, i)
    ensures var m := RawLetters(s, i); RawAt(s, i, s[i..i + m], Hashes(s, i + m))
  {
    var m := RawLetters(s, i);
    var letters := s[i..i + m];
    if m == 1 {
      assert letters == ['r'];
    } else {
      assert letters == [s[i], 'r'];
    }
  }

  /** And where there are, one opens, with as many hashes. */
  lemma RawIsFound(s: Text, i: nat, letters: Text, n: nat)
    requires RawAt(s, i, letters, n)
    ensures RawOpens(s, i) && RawLetters(s, i) == |letters| && Hashes(s, i + |letters|) == n
  {
    assert s[i] == letters[0];
    if |letters| == 2 { assert s[i + 1] == letters[1]; }
    FenceIsRun(s, i + |letters|, n);
  }

  /** What may stand between the quotes of a character literal. */
  predicate CharBody(t: Text) {
    || (|t| == 1 && t[0] != '\'' && t[0] != '\\' && t[0] != '\n')
    || (|t| == 2 && t[0] == '\\' && t[1] != '\n')
    || (|t| == 4 && t[0] == '\\' && t[1] == 'x' && Hex(t[2]) && Hex(t[3]))
    || (|t| >= 5 && t[0] == '\\' && t[1] == 'u' && t[2] == '{' && t[|t| - 1] == '}'
        && forall k | 3 <= k < |t| - 1 :: Hex(t[k]) || t[k] == '_')
  }

  predicate CharAt(s: Text, i: nat, n: nat) {
    3 <= n && i + n <= |s| && s[i] == '\'' && s[i + n - 1] == '\'' && CharBody(s[i + 1..i + n - 1])
  }

  /** A character literal is a quote, such a body and a quote. */
  lemma CharLengthIsLiteral(s: Text, i: nat)
    requires CharLength(s, i) > 0
    ensures CharAt(s, i, CharLength(s, i))
  {
    var n := CharLength(s, i);
    var t := s[i + 1..i + n - 1];
    assert forall k | 0 <= k < |t| :: t[k] == s[i + 1 + k];
  }

  lemma {:induction false} HexRunIs(s: Text, i: nat, n: nat)
    requires i + n < |s| && (forall k | i <= k < i + n :: Hex(s[k]) || s[k] == '_') && !Hex(s[i + n]) && s[i + n] != '_'
    ensures HexRun(s, i) == n
    decreases n
  {
    if n > 0 { HexRunIs(s, i + 1, n - 1); }
  }

  /** And wherever there is one, one is found. */
  lemma LiteralIsFound(s: Text, i: nat, n: nat)
    requires CharAt(s, i, n)
    ensures CharLength(s, i) > 0
  {
    var t := s[i + 1..i + n - 1];
    assert forall k | 0 <= k < |t| :: t[k] == s[i + 1 + k];
    if |t| >= 5 {
      forall k | i + 4 <= k < i + n - 2 ensures Hex(s[k]) || s[k] == '_' { assert s[k] == t[k - i - 1]; }
      HexRunIs(s, i + 4, n - 6);
    }
  }

  // ---- strings ----

  /** The backslashes just before `k`, back to `from`. */
  function Backslashes(s: Text, from: nat, k: nat): nat
    requires from <= k <= |s|
    decreases k
  {
    if k > from && s[k - 1] == '\\' then 1 + Backslashes(s, from, k - 1) else 0
  }

  /** A quote with an even run of backslashes before it. */
  predicate Closes(s: Text, from: nat, k: nat) {
    from <= k < |s| && s[k] == '"' && Backslashes(s, from, k) % 2 == 0
  }

  lemma {:induction false} StringEndFrom(s: Text, from: nat, j: nat)
    requires from <= j <= |s| && Backslashes(s, from, j) % 2 == 0
    ensures var e := StringEnd(s, j);
            || (e > j && Closes(s, from, e - 1) && forall k :: j <= k < e - 1 ==> !Closes(s, from, k))
            || (e == |s| && forall k :: j <= k ==> !Closes(s, from, k))
    decreases |s| - j
  {
    if j < |s| {
      if s[j] == '\\' {
        assert Backslashes(s, from, j + 1) == 1 + Backslashes(s, from, j);
        assert !Closes(s, from, j) && !Closes(s, from, j + 1);
        if j + 2 <= |s| { StringEndFrom(s, from, j + 2); }
      } else if s[j] != '"' {
        assert !Closes(s, from, j);
        StringEndFrom(s, from, j + 1);
      }
    }
  }

  /** A string ends after its first quote with an even run of backslashes before it, or with the text. */
  lemma StringEndMeans(s: Text, from: nat)
    requires from <= |s|
    ensures var e := StringEnd(s, from);
            || (e > from && Closes(s, from, e - 1) && forall k :: from <= k < e - 1 ==> !Closes(s, from, k))
            || (e == |s| && forall k :: !Closes(s, from, k))
  {
    StringEndFrom(s, from, from);
  }

  // ---- nested comments ----

  /** Inside a comment the text is read from the left, an opening or a closing pair at once. */
  function Next(s: Text, i: nat): nat {
    if Pair(s, i, '/', '*') || Pair(s, i, '*', '/') then i + 2 else i + 1
  }

  function Nesting(s: Text, i: nat): int {
    if Pair(s, i, '/', '*') then 1 else if Pair(s, i, '*', '/') then -1 else 0
  }

  /** The position after `n` such readings, and the openings less the closings among them. */
  function Reached(s: Text, i: nat, n: nat): nat
    decreases n
  {
    if n == 0 then i else Reached(s, Next(s, i), n - 1)
  }

  function Depth(s: Text, i: nat, n: nat): int
    decreases n
  {
    if n == 0 then 0 else Nesting(s, i) + Depth(s, Next(s, i), n - 1)
  }

  /** After `n` readings the depth is zero for the first time, or the text is at its end. */
  predicate EndsAfter(s: Text, i: nat, depth: nat, n: nat, e: nat) {
    && Reached(s, i, n) == e
    && (depth + Depth(s, i, n) == 0 || e == |s|)
    && forall m :: 0 <= m < n ==> depth + Depth(s, i, m) > 0
  }

  lemma OneReading(s: Text, i: nat, depth: nat, n: nat, e: nat)
    requires depth > 0 && depth + Nesting(s, i) >= 0 && EndsAfter(s, Next(s, i), depth + Nesting(s, i), n, e)
    ensures EndsAfter(s, i, depth, n + 1, e)
  {
    forall m | 0 <= m < n + 1 ensures depth + Depth(s, i, m) > 0 {
      if m > 0 { assert Depth(s, i, m) == Nesting(s, i) + Depth(s, Next(s, i), m - 1); }
    }
  }

  lemma {:induction false} CloseAllMeans(s: Text, i: nat, depth: nat) returns (n: nat)
    requires i <= |s|
    ensures EndsAfter(s, i, depth, n, CloseAll(s, i, depth))
    decreases |s| - i
  {
    if depth == 0 || i == |s| {
      CloseAtEnd(s, depth);
      return 0;
    }
    n := CloseAllMeans(s, Next(s, i), depth + Nesting(s, i));
    CloseAllReads(s, i, depth);
    OneReading(s, i, depth, n, CloseAll(s, i, depth));
    n := n + 1;
  }

  lemma CloseAllReads(s: Text, i: nat, depth: nat)
    requires i < |s| && depth > 0
    ensures CloseAll(s, i, depth) == CloseAll(s, Next(s, i), depth + Nesting(s, i))
  {
  }

  /** A block comment ends where as many comments have been closed as opened, its own included, for the first time; or
      with the text. */
  lemma CommentEndMeans(s: Text, i: nat) returns (n: nat)
    requires i <= |s|
    ensures EndsAfter(s, i, 1, n, CommentEnd(s, i))
  {
    n := CloseAllMeans(s, i, 1);
    assert CloseAll(s, i, 1) == CloseAll(s, CommentEnd(s, i), 0);
  }
}
