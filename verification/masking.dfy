/** The position-preserving scanner of `check-platform-boundaries.py`: it blanks Rust comments, strings
    and character literals without moving anything. */
module Masking {
  import opened Common

  type Text = seq<char>

  function Blank(text: Text): (r: Text)
    ensures |r| == |text|
    ensures forall k :: 0 <= k < |text| ==> r[k] == if text[k] == '\n' then '\n' else ' '
  {
    seq(|text|, k requires 0 <= k < |text| => if text[k] == '\n' then '\n' else ' ')
  }

  predicate Pair(s: Text, i: nat, a: char, b: char) {
    i + 1 < |s| && s[i] == a && s[i + 1] == b
  }

  predicate Is(s: Text, i: nat, c: char) {
    i < |s| && s[i] == c
  }

  // ---- the tokens ----

  /** A line comment ends before the next newline. */
  function LineEnd(s: Text, i: nat): (e: nat)
    requires i <= |s|
    ensures i <= e <= |s|
    decreases |s| - i
  {
    if i == |s| || s[i] == '\n' then i else LineEnd(s, i + 1)
  }

  /** The end of a block comment whose opening lies just before `i`: a nested comment is skipped whole,
      by recursion, and an unclosed one ends with the text. */
  function CommentEnd(s: Text, i: nat): (e: nat)
    requires i <= |s|
    ensures i <= e <= |s|
    decreases |s| - i
  {
    if i == |s| then i
    else if Pair(s, i, '/', '*') then CommentEnd(s, CommentEnd(s, i + 2))
    else if Pair(s, i, '*', '/') then i + 2
    else CommentEnd(s, i + 1)
  }

  function Hashes(s: Text, i: nat): (n: nat)
    requires i <= |s|
    ensures i + n <= |s| && forall k :: i <= k < i + n ==> s[k] == '#'
    ensures !Is(s, i + n, '#')
    decreases |s| - i
  {
    if i == |s| || s[i] != '#' then 0 else 1 + Hashes(s, i + 1)
  }

  /** Length of a raw string's letters at `i`, or zero. */
  function RawLetters(s: Text, i: nat): (n: nat)
    ensures n <= 2 && (n > 0 ==> i + n <= |s|)
  {
    if Pair(s, i, 'b', 'r') || Pair(s, i, 'c', 'r') then 2 else if Is(s, i, 'r') then 1 else 0
  }

  /** Does a raw string open at `i`? */
  predicate RawOpens(s: Text, i: nat) {
    var n := RawLetters(s, i);
    n > 0 && Is(s, i + n + Hashes(s, i + n), '"')
  }

  predicate RawCloses(s: Text, j: nat, n: nat) {
    j + 1 + n <= |s| && s[j] == '"' && forall k :: j + 1 <= k < j + 1 + n ==> s[k] == '#'
  }

  function RawEnd(s: Text, j: nat, n: nat): (e: nat)
    requires j <= |s|
    ensures j <= e <= |s|
    decreases |s| - j
  {
    if j == |s| then j else if RawCloses(s, j, n) then j + 1 + n else RawEnd(s, j + 1, n)
  }

  /** A string ends after its first quote that no backslash escapes. */
  function StringEnd(s: Text, j: nat): (e: nat)
    requires j <= |s|
    ensures j <= e <= |s|
    decreases |s| - j
  {
    if j == |s| then j
    else if s[j] == '\\' then (if j + 2 <= |s| then StringEnd(s, j + 2) else |s|)
    else if s[j] == '"' then j + 1
    else StringEnd(s, j + 1)
  }

  predicate Hex(c: char) {
    '0' <= c <= '9' || 'a' <= c <= 'f' || 'A' <= c <= 'F'
  }

  function HexRun(s: Text, i: nat): (n: nat)
    requires i <= |s|
    ensures i + n <= |s| && forall k :: i <= k < i + n ==> Hex(s[k]) || s[k] == '_'
    ensures i + n < |s| ==> !(Hex(s[i + n]) || s[i + n] == '_')
    decreases |s| - i
  {
    if i == |s| || !(Hex(s[i]) || s[i] == '_') then 0 else 1 + HexRun(s, i + 1)
  }

  /** `'\u{...}'` at `i`. */
  predicate UnicodeChar(s: Text, i: nat) {
    && Pair(s, i, '\'', '\\') && Pair(s, i + 2, 'u', '{')
    && var n := HexRun(s, i + 4); n > 0 && Pair(s, i + 4 + n, '}', '\'')
  }

  /** `'\xHH'` at `i`. */
  predicate HexChar(s: Text, i: nat) {
    && Pair(s, i, '\'', '\\') && Is(s, i + 2, 'x') && i + 5 < |s|
    && Hex(s[i + 3]) && Hex(s[i + 4]) && s[i + 5] == '\''
  }

  /** A backslash and one character other than a newline, at `i`. */
  predicate EscapedChar(s: Text, i: nat) {
    Pair(s, i, '\'', '\\') && i + 3 < |s| && s[i + 2] != '\n' && s[i + 3] == '\''
  }

  predicate PlainChar(s: Text, i: nat) {
    Is(s, i, '\'') && i + 2 < |s| && s[i + 1] !in {'\'', '\\', '\n'} && s[i + 2] == '\''
  }

  /** Length of a character literal at `i`, or zero. */
  function CharLength(s: Text, i: nat): (n: nat)
    ensures n == 0 || (3 <= n && i + n <= |s|)
    ensures n > 0 <==> UnicodeChar(s, i) || HexChar(s, i) || EscapedChar(s, i) || PlainChar(s, i)
  {
    if UnicodeChar(s, i) then 6 + HexRun(s, i + 4)
    else if HexChar(s, i) then 6
    else if EscapedChar(s, i) then 4
    else if PlainChar(s, i) then 3
    else 0
  }

  /** Does a comment, string or character literal start at `i`? */
  predicate Opens(s: Text, i: nat) {
    Pair(s, i, '/', '/') || Pair(s, i, '/', '*') || RawOpens(s, i) || Is(s, i, '"') || CharLength(s, i) > 0
  }

  /** Where the token that starts at `i` ends. */
  function TokenEnd(s: Text, i: nat): (e: nat)
    requires Opens(s, i)
    ensures i < e <= |s|
    ensures i + 2 <= e || e == |s|
  {
    if Pair(s, i, '/', '/') then (assert LineEnd(s, i) == LineEnd(s, i + 2); LineEnd(s, i))
    else if Pair(s, i, '/', '*') then CommentEnd(s, i + 2)
    else if RawOpens(s, i) then
      var open := i + RawLetters(s, i);
      RawEnd(s, open + Hashes(s, open) + 1, Hashes(s, open))
    else if Is(s, i, '"') then StringEnd(s, i + 1)
    else i + CharLength(s, i)
  }

  /** The masked text from `i` on: tokens are blanked, everything else is kept. */
  function Mask(s: Text, i: nat): (r: Text)
    requires i <= |s|
    ensures |r| == |s| - i
    decreases |s| - i
  {
    if i == |s| then []
    else if Opens(s, i) then Blank(s[i..TokenEnd(s, i)]) + Mask(s, TokenEnd(s, i))
    else [s[i]] + Mask(s, i + 1)
  }

  /** Same length, same newlines, and every character kept or blanked. */
  predicate Preserves(s: Text, r: Text) {
    && |r| == |s|
    && forall k :: 0 <= k < |s| ==> r[k] == s[k] || (s[k] != '\n' && r[k] == ' ')
  }

  // ---- the scanner ----

  /** Closing `d` comments one after the other. */
  function CloseAll(s: Text, i: nat, d: nat): (e: nat)
    requires i <= |s|
    ensures i <= e <= |s|
    decreases d
  {
    if d == 0 then i else CloseAll(s, CommentEnd(s, i), d - 1)
  }

  lemma {:induction false} CloseAtEnd(s: Text, d: nat)
    ensures CloseAll(s, |s|, d) == |s|
    decreases d
  {
    if d > 0 { CloseAtEnd(s, d - 1); }
  }

  /** The scanner counts depth instead of recursing; it stops where the recursion does. */
  method ScanComment(s: Text, start: nat) returns (index: nat)
    requires start <= |s|
    ensures index == CommentEnd(s, start)
  {
    var depth: nat := 1;
    index := start;
    while index < |s| && depth > 0
      invariant index <= |s|
      invariant CloseAll(s, index, depth) == CommentEnd(s, start)
      decreases |s| - index
    {
      if Pair(s, index, '/', '*') {
        assert CloseAll(s, index, depth) == CloseAll(s, index + 2, depth + 1);
        depth := depth + 1;
        index := index + 2;
      } else if Pair(s, index, '*', '/') {
        depth := depth - 1;
        index := index + 2;
      } else {
        index := index + 1;
      }
    }
    if index == |s| { CloseAtEnd(s, depth); }
  }

  method ScanLine(s: Text, start: nat) returns (index: nat)
    requires start <= |s|
    ensures index == LineEnd(s, start)
  {
    index := start;
    while index < |s| && s[index] != '\n'
      invariant index <= |s| && LineEnd(s, index) == LineEnd(s, start)
    {
      index := index + 1;
    }
  }

  method ScanRaw(s: Text, start: nat, hashes: nat) returns (index: nat)
    requires start <= |s|
    ensures index == RawEnd(s, start, hashes)
  {
    var from := start;
    while from < |s| && !RawCloses(s, from, hashes)
      invariant from <= |s| && RawEnd(s, from, hashes) == RawEnd(s, start, hashes)
    {
      from := from + 1;
    }
    index := if from == |s| then from else from + 1 + hashes;
  }

  /** The scanner may step past the end on a final backslash; slices clip that. */
  method ScanString(s: Text, start: nat) returns (index: nat)
    requires start <= |s|
    ensures index == StringEnd(s, start)
  {
    var from := start;
    while from < |s| && s[from] != '"'
      invariant from <= |s| ==> StringEnd(s, from) == StringEnd(s, start)
      invariant from > |s| ==> StringEnd(s, start) == |s|
      decreases |s| - from
    {
      if s[from] == '\\' { from := from + 2; } else { from := from + 1; }
    }
    index := if from < |s| then from + 1 else |s|;
  }

  /** The scanner's choice among the token kinds, in its order. */
  method ScanToken(s: Text, start: nat) returns (index: nat)
    requires start < |s|
    ensures index == if Opens(s, start) then TokenEnd(s, start) else start
  {
    index := start;
    if Pair(s, index, '/', '/') {
      index := ScanLine(s, index);
    } else if Pair(s, index, '/', '*') {
      index := ScanComment(s, index + 2);
    } else if RawOpens(s, index) {
      var open := index + RawLetters(s, index);
      var hashes := Hashes(s, open);
      index := ScanRaw(s, open + hashes + 1, hashes);
    } else if s[index] == '"' {
      index := ScanString(s, index + 1);
    } else if CharLength(s, index) > 0 {
      index := index + CharLength(s, index);
    }
  }

  /** The text so far, masked up to `i`. */
  ghost predicate MaskedTo(source: Text, output: Text, i: nat) {
    && i <= |source| && |output| == |source|
    && output[..i] + Mask(source, i) == Mask(source, 0) && output[i..] == source[i..]
  }

  lemma KeepsOne(source: Text, output: Text, i: nat)
    requires MaskedTo(source, output, i) && i < |source| && !Opens(source, i)
    ensures MaskedTo(source, output, i + 1)
  {
    assert output[i] == output[i..][0] == source[i];
    assert output[..i + 1] + Mask(source, i + 1) == output[..i] + ([source[i]] + Mask(source, i + 1));
    assert output[i + 1..] == output[i..][1..];
  }

  lemma BlanksToken(source: Text, output: Text, i: nat, e: nat)
    requires MaskedTo(source, output, i) && Opens(source, i) && e == TokenEnd(source, i)
    ensures MaskedTo(source, output[..i] + Blank(source[i..e]) + output[e..], e)
  {
    var next := output[..i] + Blank(source[i..e]) + output[e..];
    assert next[..e] + Mask(source, e) == output[..i] + (Blank(source[i..e]) + Mask(source, e));
    assert next[e..] == output[i..][e - i..];
  }

  // ---- exactly the tokens are blanked ----

  /** Read from `i` on, token by token, this character is in none of them. */
  predicate IsCode(s: Text, i: nat, k: nat)
    decreases |s| - i
  {
    i <= k < |s| &&
    if Opens(s, i) then IsCode(s, TokenEnd(s, i), k) else k == i || IsCode(s, i + 1, k)
  }

  /** Code and newlines stay; anything else is blanked. */
  predicate Shown(s: Text, k: nat, c: char, code: bool)
    requires k < |s|
  {
    c == if code || s[k] == '\n' then s[k] else ' '
  }

  predicate ShownAt(s: Text, output: Text, k: nat)
    requires k < |s| == |output|
  {
    Shown(s, k, output[k], IsCode(s, 0, k))
  }

  /** Still to be read: unchanged, and code exactly if it is code when read from `i` on. */
  predicate UnreadAt(s: Text, output: Text, i: nat, k: nat)
    requires k < |s| == |output|
  {
    output[k] == s[k] && (IsCode(s, 0, k) <==> IsCode(s, i, k))
  }

  ghost predicate ShownTo(s: Text, output: Text, i: nat) {
    && i <= |s| == |output|
    && (forall k: nat | k < i :: ShownAt(s, output, k))
    && (forall k: nat | i <= k < |s| :: UnreadAt(s, output, i, k))
  }

  lemma ShowsOne(s: Text, output: Text, i: nat)
    requires ShownTo(s, output, i) && i < |s| && !Opens(s, i)
    ensures ShownTo(s, output, i + 1)
  {
    assert UnreadAt(s, output, i, i);
    var e := i + 1;
    forall k: nat | e <= k < |s| ensures UnreadAt(s, output, e, k) {
      assert UnreadAt(s, output, i, k);
    }
  }

  lemma BlankedAt(s: Text, output: Text, i: nat, e: nat, k: nat)
    requires i < e <= |s| == |output| && k < |s|
    ensures var next := output[..i] + Blank(s[i..e]) + output[e..];
            |next| == |s| && next[k] == if i <= k < e then (if s[k] == '\n' then '\n' else ' ') else output[k]
  {
  }

  lemma HidesToken(s: Text, output: Text, next: Text, i: nat, e: nat)
    requires ShownTo(s, output, i) && i < |s| && Opens(s, i) && e == TokenEnd(s, i) && |next| == |s|
    requires forall k: nat | k < |s| :: next[k] == if i <= k < e then (if s[k] == '\n' then '\n' else ' ') else output[k]
    ensures ShownTo(s, next, e)
  {
    forall k: nat | k < e ensures ShownAt(s, next, k) {
      if k < i {
        assert ShownAt(s, output, k);
      } else {
        assert UnreadAt(s, output, i, k) && !IsCode(s, e, k);
      }
    }
    forall k: nat | e <= k < |s| ensures UnreadAt(s, next, e, k) {
      assert UnreadAt(s, output, i, k);
    }
  }

  /** Computes the mask of the token specification. Every character outside the tokens stays, and every one inside, but
      for newlines, is blanked. */
  method CodeOnly(source: Text) returns (output: Text)
    ensures output == Mask(source, 0)
    ensures Preserves(source, output)
    ensures forall k: nat | k < |source| :: ShownAt(source, output, k)
  {
    output := source;
    var index := 0;
    assert MaskedTo(source, output, 0);
    while index < |source|
      invariant MaskedTo(source, output, index) && ShownTo(source, output, index)
      decreases |source| - index
    {
      var start := index;
      index := ScanToken(source, start);
      if index == start {
        KeepsOne(source, output, start);
        ShowsOne(source, output, start);
        index := index + 1;
      } else {
        BlanksToken(source, output, start, index);
        forall k: nat | k < |source| { BlankedAt(source, output, start, index, k); }
        HidesToken(source, output, output[..start] + Blank(source[start..index]) + output[index..], start, index);
        output := output[..start] + Blank(source[start..index]) + output[index..];
      }
    }
    assert output == Mask(source, 0);
    MaskPreserves(source, 0);
    assert source[0..] == source;
  }

  // ---- what masking keeps ----

  lemma PreservesJoined(a: Text, a': Text, b: Text, b': Text)
    requires Preserves(a, a') && Preserves(b, b')
    ensures Preserves(a + b, a' + b')
  {
  }

  lemma {:induction false} MaskPreserves(s: Text, i: nat)
    requires i <= |s|
    ensures Preserves(s[i..], Mask(s, i))
    decreases |s| - i
  {
    if i == |s| {
    } else if Opens(s, i) {
      var e := TokenEnd(s, i);
      MaskPreserves(s, e);
      PreservesJoined(s[i..e], Blank(s[i..e]), s[e..], Mask(s, e));
      assert s[i..] == s[i..e] + s[e..];
    } else {
      MaskPreserves(s, i + 1);
      PreservesJoined([s[i]], [s[i]], s[i + 1..], Mask(s, i + 1));
      assert s[i..] == [s[i]] + s[i + 1..];
    }
  }

  /** How the masked text looks from a token boundary `i` on. */
  ghost predicate MaskedFrom(s: Text, out: Text, i: nat) {
    i <= |s| && |out| == |s| && out[i..] == Mask(s, i)
  }

  lemma MaskedAfterToken(s: Text, out: Text, i: nat)
    requires MaskedFrom(s, out, i) && Opens(s, i)
    ensures var e := TokenEnd(s, i);
            MaskedFrom(s, out, e) && forall k :: i <= k < e ==> out[k] == ' ' || out[k] == '\n'
  {
  }

  lemma MaskedAfterCode(s: Text, out: Text, i: nat)
    requires MaskedFrom(s, out, i) && i < |s| && !Opens(s, i)
    ensures MaskedFrom(s, out, i + 1) && out[i] == s[i]
  {
  }

  /** Every character of `out` from `i` on is a blank or that of `s`. */
  predicate VisibleKept(s: Text, out: Text, i: nat) {
    |out| == |s| && forall k :: i <= k < |s| && out[k] != ' ' ==> out[k] == s[k]
  }

  lemma KeptWhereVisible(s: Text, out: Text, i: nat)
    requires MaskedFrom(s, out, i)
    ensures VisibleKept(s, out, i)
  {
    MaskPreserves(s, i);
    forall k | i <= k < |s| && out[k] != ' ' ensures out[k] == s[k] {
      assert out[i..][k - i] == out[k] && s[i..][k - i] == s[k];
    }
  }

  /** A blanked position that was visible lies in a token, and a token of one character ends the text; so a
      visible character never follows a lone blanked one. */
  lemma NoLoneBlank(s: Text, out: Text, i: nat)
    requires MaskedFrom(s, out, i) && i + 1 < |s| && out[i + 1] != ' ' && out[i + 1] != '\n'
    ensures out[i] == s[i]
  {
  }

  /** No raw string opens in masked text where none opened in the source. */
  lemma NoNewRaw(s: Text, out: Text, i: nat)
    requires VisibleKept(s, out, i) && RawOpens(out, i)
    ensures RawOpens(s, i)
  {
  }

  lemma NoNewUnicode(s: Text, out: Text, i: nat)
    requires VisibleKept(s, out, i) && UnicodeChar(out, i)
    ensures UnicodeChar(s, i)
  {
  }

  /** Nor does a character literal. */
  lemma NoNewChar(s: Text, out: Text, i: nat)
    requires VisibleKept(s, out, i) && MaskedFrom(s, out, i + 1) && CharLength(out, i) > 0
    ensures CharLength(s, i) > 0
  {
    if UnicodeChar(out, i) {
      NoNewUnicode(s, out, i);
    } else if HexChar(out, i) {
      assert HexChar(s, i);
    } else if EscapedChar(out, i) {
      if Opens(s, i + 1) {
        MaskedAfterToken(s, out, i + 1);
        assert false;
      }
      MaskedAfterCode(s, out, i + 1);
      NoLoneBlank(s, out, i + 2);
      assert EscapedChar(s, i);
    } else {
      NoLoneBlank(s, out, i + 1);
      assert PlainChar(s, i);
    }
  }

  /** No token opens anywhere in masked text. */
  lemma {:induction false} NothingOpens(s: Text, out: Text, i: nat, j: nat)
    requires MaskedFrom(s, out, i) && i <= j < |s|
    ensures !Opens(out, j)
    decreases |s| - i
  {
    if Opens(s, i) {
      MaskedAfterToken(s, out, i);
      if j >= TokenEnd(s, i) { NothingOpens(s, out, TokenEnd(s, i), j); }
    } else {
      MaskedAfterCode(s, out, i);
      if j > i {
        NothingOpens(s, out, i + 1, j);
      } else {
        KeptWhereVisible(s, out, i);
        if RawOpens(out, i) { NoNewRaw(s, out, i); }
        if CharLength(out, i) > 0 { NoNewChar(s, out, i); }
      }
    }
  }

  lemma {:induction false} MaskOfCode(out: Text, i: nat)
    requires i <= |out| && forall j :: i <= j < |out| ==> !Opens(out, j)
    ensures Mask(out, i) == out[i..]
    decreases |out| - i
  {
    if i < |out| { MaskOfCode(out, i + 1); }
  }

  /** Masking twice is masking once, for every text. */
  lemma MaskIsIdempotent(s: Text)
    ensures Mask(Mask(s, 0), 0) == Mask(s, 0)
  {
    var out := Mask(s, 0);
    assert MaskedFrom(s, out, 0);
    forall j | 0 <= j < |out| ensures !Opens(out, j) {
      NothingOpens(s, out, 0, j);
    }
    MaskOfCode(out, 0);
  }

  // ---- test gates ----

  /** Opening minus closing brackets in `code[start..k]`. */
  function Depth(code: Text, start: nat, k: nat, left: char, right: char): int
    requires start <= k <= |code|
    decreases k
  {
    if k == start then 0
    else Depth(code, start, k - 1, left, right)
         + (if code[k - 1] == left then 1 else if code[k - 1] == right then -1 else 0)
  }

  predicate ClosesAt(code: Text, start: nat, k: nat, left: char, right: char)
    requires start < k <= |code|
  {
    code[k - 1] != left && code[k - 1] == right && Depth(code, start, k, left, right) == 0
  }

  /** Scanning on from `index` at this depth. */
  function CloseScan(code: Text, index: nat, depth: int, left: char, right: char): (r: Option<nat>)
    requires index <= |code|
    ensures r.Some? ==> index < r.value <= |code|
    decreases |code| - index
  {
    if index == |code| then None
    else if code[index] == left then CloseScan(code, index + 1, depth + 1, left, right)
    else if code[index] != right then CloseScan(code, index + 1, depth, left, right)
    else if depth == 1 then Some(index + 1)
    else CloseScan(code, index + 1, depth - 1, left, right)
  }

  /** `e` is the first place where everything since `start` balances. */
  predicate FirstClose(code: Text, start: nat, e: nat, left: char, right: char) {
    && start < e <= |code| && ClosesAt(code, start, e, left, right)
    && forall k :: start < k < e ==> !ClosesAt(code, start, k, left, right)
  }

  lemma {:induction false} ScanFindsFirst(code: Text, start: nat, index: nat, left: char, right: char)
    requires start <= index <= |code| && forall k :: start < k <= index ==> !ClosesAt(code, start, k, left, right)
    ensures var r := CloseScan(code, index, Depth(code, start, index, left, right), left, right);
            if r.Some? then FirstClose(code, start, r.value, left, right)
            else forall k :: start < k <= |code| ==> !ClosesAt(code, start, k, left, right)
    decreases |code| - index
  {
    if index < |code| && !ClosesAt(code, start, index + 1, left, right) {
      ScanFindsFirst(code, start, index + 1, left, right);
    }
  }

  /** The first position after a closing bracket that balances everything since `start`, if any. */
  method Closing(code: Text, start: nat, left: char, right: char) returns (r: Option<nat>)
    requires start <= |code|
    ensures r == CloseScan(code, start, 0, left, right)
    ensures r.Some? ==> start < r.value <= |code| && ClosesAt(code, start, r.value, left, right)
    ensures forall k :: start < k < (if r.Some? then r.value else |code| + 1) ==> !ClosesAt(code, start, k, left, right)
  {
    var depth := 0;
    for index := start to |code|
      invariant depth == Depth(code, start, index, left, right)
      invariant CloseScan(code, start, 0, left, right) == CloseScan(code, index, depth, left, right)
      invariant forall k :: start < k <= index ==> !ClosesAt(code, start, k, left, right)
    {
      if code[index] == left {
        depth := depth + 1;
      } else if code[index] == right {
        depth := depth - 1;
        if depth == 0 { return Some(index + 1); }
      }
    }
    r := None;
  }

  predicate Space(c: char) {
    c in {' ', '\t', '\n', '\r'}
  }

  // ---- the item a gate applies to ----

  function SkipSpace(code: Text, i: nat): (j: nat)
    requires i <= |code|
    ensures i <= j <= |code| && (forall k :: i <= k < j ==> Space(code[k])) && (j < |code| ==> !Space(code[j]))
    decreases |code| - i
  {
    if i < |code| && Space(code[i]) then SkipSpace(code, i + 1) else i
  }

  /** Past white space and any further attributes; nothing if one of them never closes. */
  function SkipAttributes(code: Text, i: nat): (r: Option<nat>)
    requires i <= |code|
    ensures r.Some? ==> i <= r.value <= |code| && !Pair(code, r.value, '#', '[')
    decreases |code| - i
  {
    var j := SkipSpace(code, i);
    if !Pair(code, j, '#', '[') then Some(j)
    else
      var end := CloseScan(code, j + 1, 0, '[', ']');
      if end.None? then None else SkipAttributes(code, end.value)
  }

  predicate EndsHead(c: char) {
    c in {'{', ';', ','}
  }

  function SkipToStop(code: Text, i: nat): (j: nat)
    requires i <= |code|
    ensures i <= j <= |code| && (forall k :: i <= k < j ==> !EndsHead(code[k])) && (j < |code| ==> EndsHead(code[j]))
    decreases |code| - i
  {
    if i < |code| && !EndsHead(code[i]) then SkipToStop(code, i + 1) else i
  }

  /** Where the item after a gate ends: its body's closing brace, or its first `;` or `,`, or the end. */
  function ItemEndOf(code: Text, from: nat): (r: Option<nat>)
    requires from <= |code|
    ensures r.Some? ==> from <= r.value <= |code|
  {
    var head := SkipAttributes(code, from);
    if head.None? then None
    else
      var stop := SkipToStop(code, head.value);
      if stop == |code| then Some(stop)
      else if code[stop] == '{' then CloseScan(code, stop, 0, '{', '}')
      else Some(stop + 1)
  }

  /** What the end of an item means: past its attributes, the first `;` or `,` if no brace comes before it, the
      brace that balances its first one, or the end of the text. */
  lemma ItemEndMeans(code: Text, from: nat)
    requires from <= |code| && ItemEndOf(code, from).Some?
    ensures var e := ItemEndOf(code, from).value;
            exists stop :: from <= stop <= |code| && EndsAt(code, SkipAttributes(code, from), stop, e)
  {
    var stop := SkipToStop(code, SkipAttributes(code, from).value);
    ScanFindsFirst(code, stop, stop, '{', '}');
    assert EndsAt(code, SkipAttributes(code, from), stop, ItemEndOf(code, from).value);
  }

  predicate EndsAt(code: Text, head: Option<nat>, stop: nat, e: nat) {
    && head.Some? && head.value <= stop <= |code| && (forall k :: head.value <= k < stop ==> !EndsHead(code[k]))
    && if stop == |code| then e == stop
       else if code[stop] == '{' then FirstClose(code, stop, e, '{', '}')
       else code[stop] in {';', ','} && e == stop + 1
  }

  method PastAttributes(code: Text, from: nat) returns (r: Option<nat>)
    requires from <= |code|
    ensures r == SkipAttributes(code, from)
  {
    var index := from;
    while true
      invariant from <= index <= |code| && SkipAttributes(code, from) == SkipAttributes(code, index)
      decreases |code| - index
    {
      ghost var before := index;
      while index < |code| && Space(code[index])
        invariant before <= index <= |code| && SkipSpace(code, before) == SkipSpace(code, index)
      {
        index := index + 1;
      }
      if !Pair(code, index, '#', '[') { return Some(index); }
      var end := Closing(code, index + 1, '[', ']');
      if end.None? { return None; }
      index := end.value;
    }
  }

  /** The end of the item that a test gate ending at `from` applies to, or a failure if a bracket of it never
      closes. */
  method ItemEnd(code: Text, from: nat) returns (r: Option<nat>)
    requires from <= |code|
    ensures r == ItemEndOf(code, from)
  {
    var head := PastAttributes(code, from);
    if head.None? { return None; }
    var index := head.value;
    while index < |code| && code[index] !in {'{', ';', ','}
      invariant head.value <= index <= |code| && SkipToStop(code, head.value) == SkipToStop(code, index)
    {
      index := index + 1;
    }
    if index < |code| && code[index] == '{' {
      r := Closing(code, index, '{', '}');
    } else {
      r := Some(if index < |code| then index + 1 else |code|);
    }
  }

  // ---- blanking the items ----

  /** A half-open span, such as a match of the test-gate pattern. */
  datatype Span = Span(start: nat, end: nat)

  predicate SpansOf(code: Text, gates: seq<Span>) {
    forall g :: 0 <= g < |gates| ==> gates[g].start <= gates[g].end <= |code|
  }

  predicate Covered(spans: seq<Span>, k: nat) {
    exists i :: 0 <= i < |spans| && spans[i].start <= k < spans[i].end
  }

  /** Nothing is left to see of this span. */
  predicate Hidden(code: Text, spans: seq<Span>, gate: Span)
    requires gate.end <= |code|
  {
    forall k :: gate.start <= k < gate.end ==> Space(code[k]) || Covered(spans, k)
  }

  /** One more gate, blanked with its item unless it is hidden already. */
  function AddCut(code: Text, earlier: Option<seq<Span>>, gate: Span): Option<seq<Span>>
    requires gate.end <= |code|
  {
    if earlier.None? || Hidden(code, earlier.value, gate) then earlier
    else
      var end := ItemEndOf(code, gate.end);
      if end.None? then None else Some(earlier.value + [Span(gate.start, end.value)])
  }

  /** The spans that the first `n` gates blank. */
  function Cuts(code: Text, gates: seq<Span>, n: nat): Option<seq<Span>>
    requires SpansOf(code, gates) && n <= |gates|
  {
    if n == 0 then Some([]) else AddCut(code, Cuts(code, gates, n - 1), gates[n - 1])
  }

  /** Blank on the spans, except for newlines, and unchanged everywhere else. */
  predicate Erased(code: Text, spans: seq<Span>, output: Text) {
    && |output| == |code|
    && forall k :: 0 <= k < |code| ==> output[k] == if Covered(spans, k) && code[k] != '\n' then ' ' else code[k]
  }

  predicate IsBlank(text: Text) {
    forall k :: 0 <= k < |text| ==> Space(text[k])
  }

  lemma ErasedPreserves(code: Text, spans: seq<Span>, output: Text)
    requires Erased(code, spans, output)
    ensures Preserves(code, output)
  {
  }

  lemma HiddenIsBlank(code: Text, spans: seq<Span>, output: Text, gate: Span)
    requires Erased(code, spans, output) && gate.start <= gate.end <= |code|
    ensures Hidden(code, spans, gate) <==> IsBlank(output[gate.start..gate.end])
  {
    var text := output[gate.start..gate.end];
    assert forall k :: gate.start <= k < gate.end ==> output[k] == text[k - gate.start];
    assert forall k :: 0 <= k < |text| ==> text[k] == output[gate.start + k];
  }

  lemma EraseOne(code: Text, spans: seq<Span>, output: Text, span: Span)
    requires Erased(code, spans, output) && span.start <= span.end <= |code|
    ensures Erased(code, spans + [span], output[..span.start] + Blank(code[span.start..span.end]) + output[span.end..])
  {
    var blank := Blank(code[span.start..span.end]);
    var output' := output[..span.start] + blank + output[span.end..];
    forall k | 0 <= k < |code|
      ensures output'[k] == if Covered(spans + [span], k) && code[k] != '\n' then ' ' else code[k]
    {
      CoveredByOneMore(spans, span, k);
      if span.start <= k < span.end { assert output'[k] == blank[k - span.start]; }
    }
  }

  lemma CoveredByOneMore(spans: seq<Span>, span: Span, k: nat)
    ensures Covered(spans + [span], k) <==> Covered(spans, k) || span.start <= k < span.end
  {
    var more := spans + [span];
    assert more[|spans|] == span;
    assert forall i :: 0 <= i < |spans| ==> more[i] == spans[i];
  }

  /** `without_tests` over the matches of its gate pattern. It fails if and only if a bracket of an item never
      closes. Otherwise the spans from each gate that is still visible to the end of its item are blanked, and
      every other character, and every newline, is where it was. */
  method WithoutTests(code: Text, gates: seq<Span>) returns (r: Option<Text>)
    requires SpansOf(code, gates)
    ensures r.Some? <==> Cuts(code, gates, |gates|).Some?
    ensures r.Some? ==> Erased(code, Cuts(code, gates, |gates|).value, r.value) && Preserves(code, r.value)
  {
    var output := code;
    ghost var spans: seq<Span> := [];
    for g := 0 to |gates|
      invariant Cuts(code, gates, g) == Some(spans) && Erased(code, spans, output)
    {
      var gate := gates[g];
      HiddenIsBlank(code, spans, output, gate);
      if !IsBlank(output[gate.start..gate.end]) {
        var end := ItemEnd(code, gate.end);
        if end.None? {
          CutsStayFailed(code, gates, g + 1, |gates|);
          return None;
        }
        EraseOne(code, spans, output, Span(gate.start, end.value));
        output := output[..gate.start] + Blank(code[gate.start..end.value]) + output[end.value..];
        spans := spans + [Span(gate.start, end.value)];
      }
    }
    ErasedPreserves(code, spans, output);
    r := Some(output);
  }

  lemma {:induction false} CutsStayFailed(code: Text, gates: seq<Span>, n: nat, m: nat)
    requires SpansOf(code, gates) && n <= m <= |gates| && Cuts(code, gates, n).None?
    ensures Cuts(code, gates, m).None?
    decreases m
  {
    if n < m {
      CutsStayFailed(code, gates, n, m - 1);
      assert Cuts(code, gates, m) == AddCut(code, None, gates[m - 1]);
    }
  }

  lemma CutHides(code: Text, earlier: seq<Span>, gate: Span, other: Span)
    requires gate.end <= |code| && other.end <= |code| && AddCut(code, Some(earlier), gate).Some?
    requires Hidden(code, earlier, other) || other == gate
    ensures Hidden(code, AddCut(code, Some(earlier), gate).value, other)
  {
    var cuts := AddCut(code, Some(earlier), gate).value;
    if cuts != earlier {
      forall k | other.start <= k < other.end ensures Space(code[k]) || Covered(cuts, k) {
        CoveredByOneMore(earlier, cuts[|earlier|], k);
      }
    }
  }

  /** Whatever the gates, no gate is visible afterwards. */
  lemma {:induction false} GatesAreHidden(code: Text, gates: seq<Span>, n: nat, g: nat)
    requires SpansOf(code, gates) && g < n <= |gates| && Cuts(code, gates, n).Some?
    ensures Hidden(code, Cuts(code, gates, n).value, gates[g])
    decreases n
  {
    var earlier := Cuts(code, gates, n - 1).value;
    if g < n - 1 { GatesAreHidden(code, gates, n - 1, g); }
    CutHides(code, earlier, gates[n - 1], gates[g]);
  }

  // ---- reported lines ----

  function Newlines(s: Text, k: nat): (n: nat)
    requires k <= |s|
  {
    if k == 0 then 0 else Newlines(s, k - 1) + (if s[k - 1] == '\n' then 1 else 0)
  }

  lemma {:induction false} SameLine(s: Text, r: Text, k: nat)
    requires Preserves(s, r) && k <= |s|
    ensures Newlines(s, k) == Newlines(r, k)
  {
    if k > 0 { SameLine(s, r, k - 1); }
  }

  /** A violation is reported at the line it has in the original source. */
  method ReportedLine(source: Text, gates: seq<Span>, position: nat) returns (line: Option<nat>)
    requires SpansOf(source, gates) && position <= |source|
    ensures line.Some? <==> Cuts(Mask(source, 0), gates, |gates|).Some?
    ensures line.Some? ==> line.value == Newlines(source, position) + 1
  {
    var masked := CodeOnly(source);
    var code := WithoutTests(masked, gates);
    if code.None? { return None; }
    line := Some(Newlines(code.value, position) + 1);
    SameLine(source, masked, position);
    SameLine(masked, code.value, position);
  }
}
