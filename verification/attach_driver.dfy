/** The PTY driver of `compat-pty.py`: the transcript it keeps and when it writes the detach chord. */
module AttachDriver {
  import opened Common
  import opened StreamMatch

  const READY: Bytes := [27, 91, 63, 50, 48, 50, 54, 108]

  const OUTPUT_LIMIT: nat := 4194304

  /** What the driver sees in one turn of its loop: nothing, output, or the end of the output. */
  datatype Input = Quiet | Output(data: Bytes) | End

  /** One turn: whether the deadline has passed, the input, whether the marker file is there, and whether
      the last detach was long enough ago. */
  datatype Turn = Turn(expired: bool, input: Input, marker: bool, due: bool)

  function TurnOutput(turn: Turn): Bytes {
    if turn.input.Output? then turn.input.data else []
  }

  // ---- what the driver is for ----

  /** All the output of the turns before `n`. */
  function OutputOf(turns: seq<Turn>, n: nat): Bytes
    requires n <= |turns|
  {
    if n == 0 then [] else OutputOf(turns, n - 1) + TurnOutput(turns[n - 1])
  }

  /** A detach is written after a turn that leaves the readiness sequence in the transcript, with the marker
      there and a detach due. */
  function TurnDetach(transcript: Bytes, turn: Turn): seq<Bytes> {
    if Contains(transcript, READY) && turn.marker && turn.due then [transcript] else []
  }

  /** The transcript at each detach of the turns before `n`. */
  function DetachesOf(turns: seq<Turn>, n: nat): seq<Bytes>
    requires n <= |turns|
  {
    if n == 0 then [] else DetachesOf(turns, n - 1) + TurnDetach(OutputOf(turns, n), turns[n - 1])
  }

  /** The exit code after the turns before `n`, all handled in full: 124 past the deadline or if the attach does
      not exit, 1 past the limit or if no detach was written, and otherwise the status of the attach. */
  function ExitCode(turns: seq<Turn>, n: nat, exit: Option<int>): int
    requires n <= |turns|
  {
    if n < |turns| && turns[n].expired then 124
    else if n < |turns| && !turns[n].input.End? then 1
    else FinalCode(DetachesOf(turns, n) != [], exit)
  }

  /** The code at the end of the output, given whether a detach was written. */
  function FinalCode(sent: bool, exit: Option<int>): int {
    if exit.None? then 124
    else if !sent then 1
    else if exit.value >= 0 then exit.value else 128 - exit.value
  }

  // ---- what it keeps ----

  datatype Seen = Seen(ready: bool, tail: Bytes, transcript: Bytes, detaches: seq<Bytes>)

  const NOTHING := Seen(false, [], [], [])

  /** The last bytes, as many as the readiness sequence has. */
  function Tail(s: Bytes): Bytes {
    if |s| <= |READY| then s else s[|s| - |READY|..]
  }

  /** Only the tail and the new data are searched. */
  function Took(seen: Seen, data: Bytes): Seen {
    Seen(seen.ready || Contains(seen.tail + data, READY), Tail(seen.tail + data), seen.transcript + data, seen.detaches)
  }

  function Detached(seen: Seen, marker: bool, due: bool): Seen {
    if seen.ready && marker && due then seen.(detaches := seen.detaches + [seen.transcript]) else seen
  }

  function Handled(seen: Seen, turn: Turn): Seen {
    Detached(if turn.input.Output? then Took(seen, turn.input.data) else seen, turn.marker, turn.due)
  }

  function After(turns: seq<Turn>, n: nat): Seen
    requires n <= |turns|
  {
    if n == 0 then NOTHING else Handled(After(turns, n - 1), turns[n - 1])
  }

  // ---- the one is the other ----

  predicate Reads(seen: Seen, transcript: Bytes) {
    seen.transcript == transcript && seen.tail == Tail(transcript) && (seen.ready <==> Contains(transcript, READY))
  }

  lemma ReadyIsChunkFree(transcript: Bytes, data: Bytes)
    ensures Contains(transcript + data, READY) <==> Contains(transcript, READY) || Contains(Tail(transcript) + data, READY)
  {
    ContainsIsChunkFree(transcript, data, READY, |transcript| - |Tail(transcript)|);
  }

  lemma TailOfMore(transcript: Bytes, data: Bytes)
    ensures Tail(Tail(transcript) + data) == Tail(transcript + data)
  {
    var dropped := |transcript| - |Tail(transcript)|;
    assert Tail(transcript) + data == (transcript + data)[dropped..];
  }

  lemma TookReads(seen: Seen, transcript: Bytes, data: Bytes)
    requires Reads(seen, transcript)
    ensures Reads(Took(seen, data), transcript + data)
  {
    ReadyIsChunkFree(transcript, data);
    TailOfMore(transcript, data);
  }

  lemma HandledReads(seen: Seen, transcript: Bytes, turn: Turn)
    requires Reads(seen, transcript)
    ensures Reads(Handled(seen, turn), transcript + TurnOutput(turn))
    ensures Handled(seen, turn).detaches == seen.detaches + TurnDetach(transcript + TurnOutput(turn), turn)
  {
    if turn.input.Output? {
      TookReads(seen, transcript, turn.input.data);
    } else {
      assert transcript + TurnOutput(turn) == transcript;
    }
  }

  /** Searching only tails finds the readiness sequence exactly when it is complete, however the output is split,
      so the detaches are exactly those that are due. */
  lemma {:induction false} AfterReads(turns: seq<Turn>, n: nat)
    requires n <= |turns|
    ensures Reads(After(turns, n), OutputOf(turns, n)) && After(turns, n).detaches == DetachesOf(turns, n)
  {
    if n > 0 {
      AfterReads(turns, n - 1);
      HandledReads(After(turns, n - 1), OutputOf(turns, n - 1), turns[n - 1]);
    }
  }

  /** Each detach is written after a turn with the marker there, and all the output up to it holds the complete
      readiness sequence. */
  lemma {:induction false} DetachesAreReady(turns: seq<Turn>, n: nat, i: nat) returns (k: nat)
    requires n <= |turns| && i < |DetachesOf(turns, n)|
    ensures k < n && turns[k].marker && DetachesOf(turns, n)[i] == OutputOf(turns, k + 1)
    ensures Contains(OutputOf(turns, k + 1), READY)
  {
    if i < |DetachesOf(turns, n - 1)| {
      k := DetachesAreReady(turns, n - 1, i);
    } else {
      k := n - 1;
    }
  }

  class Driver {
    var ready: bool
    var sent: bool
    var tail: Bytes
    var total: nat
    var transcript: Bytes
    /** The transcript as it was at each detach. */
    ghost var detaches: seq<Bytes>

    ghost predicate Valid()
      reads this
    {
      total == |transcript| <= OUTPUT_LIMIT && (sent <==> detaches != [])
    }

    ghost function Now(): Seen
      reads this
    {
      Seen(ready, tail, transcript, detaches)
    }

    constructor ()
      ensures Valid() && Now() == NOTHING
    {
      ready, sent, tail, total, transcript, detaches := false, false, [], 0, [], [];
    }

    /** Takes output, unless it would pass the limit. */
    method Accept(data: Bytes) returns (ok: bool)
      requires Valid()
      modifies this
      ensures ok <==> |old(transcript)| + |data| <= OUTPUT_LIMIT
      ensures ok ==> Valid() && Now() == Took(old(Now()), data)
      ensures !ok ==> Now() == old(Now()) && sent == old(sent)
    {
      total := total + |data|;
      if total > OUTPUT_LIMIT { return false; }
      transcript := transcript + data;
      ready := ready || Contains(tail + data, READY);
      tail := Tail(tail + data);
      ok := true;
    }

    /** Writes the detach chord if the terminal is ready and the marker is there. */
    method Detach(marker: bool, due: bool)
      requires Valid()
      modifies this`sent, this`detaches
      ensures Valid() && Now() == Detached(old(Now()), marker, due)
    {
      if ready && marker && due {
        sent := true;
        detaches := detaches + [transcript];
      }
    }

    /** One turn of the loop that is neither past the deadline nor at the end of the output. */
    method Handle(turn: Turn) returns (ok: bool)
      requires Valid()
      modifies this
      ensures ok <==> |old(transcript)| + |TurnOutput(turn)| <= OUTPUT_LIMIT
      ensures ok ==> Valid() && Now() == Handled(old(Now()), turn)
      ensures !ok ==> Now() == old(Now()) && sent == old(sent)
    {
      ok := true;
      if turn.input.Output? {
        ok := Accept(turn.input.data);
        if !ok { return; }
      }
      Detach(turn.marker, turn.due);
    }

    /** The loop, over the turns up to the end of the output. It handles `n` turns in full and says why it
        stops there. */
    method Follow(turns: seq<Turn>) returns (n: nat)
      requires Valid() && Now() == NOTHING
      modifies this
      ensures n <= |turns| && Now() == After(turns, n) && (sent <==> detaches != []) && |transcript| <= OUTPUT_LIMIT
      ensures forall i | 0 <= i < n :: !turns[i].expired && !turns[i].input.End?
      ensures n < |turns| ==>
                turns[n].expired || turns[n].input.End? || |After(turns, n).transcript| + |TurnOutput(turns[n])| > OUTPUT_LIMIT
    {
      n := 0;
      while n < |turns| && !turns[n].expired && !turns[n].input.End?
        invariant n <= |turns| && Valid() && Now() == After(turns, n)
        invariant forall i | 0 <= i < n :: !turns[i].expired && !turns[i].input.End?
      {
        var ok := Handle(turns[n]);
        if !ok { return; }
        n := n + 1;
      }
    }

    /** The loop and its exit code. The transcript is all the output of the turns handled, whatever its blocks;
        and the detaches are exactly those that are due once the readiness sequence is complete. */
    method Drive(turns: seq<Turn>, exit: Option<int>) returns (code: int, n: nat)
      requires Valid() && Now() == NOTHING
      modifies this
      ensures n <= |turns| && transcript == OutputOf(turns, n) && |transcript| <= OUTPUT_LIMIT
      ensures forall i | 0 <= i < n :: !turns[i].expired && !turns[i].input.End?
      ensures n < |turns| ==> turns[n].expired || turns[n].input.End? || |OutputOf(turns, n + 1)| > OUTPUT_LIMIT
      ensures detaches == DetachesOf(turns, n)
      ensures code == ExitCode(turns, n, exit)
    {
      n := Follow(turns);
      AfterReads(turns, n);
      if n < |turns| && turns[n].expired { return 124, n; }
      if n < |turns| && !turns[n].input.End? { return 1, n; }
      if exit.None? { return 124, n; }
      if !sent { return 1, n; }
      code := if exit.value >= 0 then exit.value else 128 - exit.value;
    }
  }
}
