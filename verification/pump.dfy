/** The incoming thread of a connection: what it reads from the socket it pushes into the proton engine, which may take
    any part of it at a time. */
module Pumps {
  import opened Wrappers
  import opened Values

  /** What proton_push answers: a count, 0 while there is no messenger, -2 for an engine that takes no more; or an
      exception, which the thread logs. */
  datatype Answer = Returned(n: int) | Threw

  datatype End = Delivered | Dropped | Failed | Unfinished

  /** How much of a chunk the engine has taken, and how the loop over it ended. */
  datatype Push = Push(taken: nat, end: End)

  function Least(a: int, b: int): int {
    if a < b then a else b
  }

  /** The loop over one chunk, of which `answers` are the answers it gets. */
  function PushChunk(msg: Bytes, answers: seq<Answer>): (p: Push)
    ensures p.taken <= |msg|
    decreases |answers|
  {
    if msg == [] then Push(0, Delivered)
    else if answers == [] then Push(0, Unfinished)
    else
      match answers[0]
      case Threw => Push(0, Failed)
      case Returned(n) =>
        if n == -2 then Push(0, Dropped)
        else if n <= 0 then PushChunk(msg, answers[1..])
        else if n < |msg| then
          var rest := PushChunk(msg[n..], answers[1..]);
          Push(n + rest.taken, rest.end)
        else Push(|msg|, Delivered)
  }

  datatype Read = Chunk(bytes: Bytes) | NoChunk | Reset | Threw

  /** One turn of the thread: whether it is stopped at the head of the loop, what it reads, whether it is stopped
      then, the answers to its pushes, and whether the client is stopping when the connection is reset. */
  datatype Turn = Turn(leaves: bool, read: Read, stopped: bool, answers: seq<Answer>, quitting: bool)

  /** A chunk that has been pushed. */
  datatype Piece = Piece(chunk: Bytes, push: Push)

  datatype Progress = Running | Left | Stuck

  /** `consumed` is what the engine has taken since the connection was made. */
  datatype Pump = Pump(consumed: Bytes, pieces: seq<Piece>, socketsOpen: bool, retried: bool, progress: Progress)

  function TakeTurn(p: Pump, t: Turn): Pump {
    if t.leaves || !p.socketsOpen then p.(socketsOpen := false, progress := Left)
    else
      match t.read
      case Threw => p
      case Reset => p.(socketsOpen := false, retried := p.retried || !t.quitting, progress := Left)
      case NoChunk => p.(socketsOpen := false, progress := Left)
      case Chunk(bytes) =>
        if t.stopped || bytes == [] then p.(socketsOpen := false, progress := Left)
        else
          var push := PushChunk(bytes, t.answers);
          p.(consumed := p.consumed + bytes[..push.taken], pieces := p.pieces + [Piece(bytes, push)],
             progress := if push.end == Unfinished then Stuck else Running)
  }

  function RunTurns(p: Pump, turns: seq<Turn>): Pump
    decreases |turns|
  {
    if turns == [] || p.progress != Running then p else RunTurns(TakeTurn(p, turns[0]), turns[1..])
  }

  // ----- One chunk.

  function Positives(answers: seq<Answer>): nat {
    if answers == [] then 0
    else (if answers[0].Returned? && answers[0].n > 0 then 1 else 0) + Positives(answers[1..])
  }

  /** A chunk is delivered exactly if all of it has been taken; less of it is taken for good only after an answer of -2
      or an exception; and the loop ends as soon as it has had as many positive answers as there are bytes. */
  lemma {:induction false} ChunkEndsTell(msg: Bytes, answers: seq<Answer>)
    ensures var p := PushChunk(msg, answers);
      && (p.end == Delivered <==> p.taken == |msg|)
      && (p.end == Dropped ==> Returned(-2) in answers)
      && (p.end == Failed ==> Answer.Threw in answers)
      && (Positives(answers) >= |msg| ==> p.end != Unfinished)
    decreases |answers|
  {
    if msg != [] && answers != [] && answers[0].Returned? {
      var n := answers[0].n;
      if n <= 0 {
        ChunkEndsTell(msg, answers[1..]);
      } else if n < |msg| {
        ChunkEndsTell(msg[n..], answers[1..]);
      }
    }
  }

  /** Neither an exception nor an answer of -2. */
  predicate Accepting(answer: Answer) {
    answer.Returned? && answer.n != -2
  }

  /** The bytes that the answers count. */
  function Counted(answers: seq<Answer>): nat {
    if answers == [] then 0
    else (if answers[0].Returned? && answers[0].n > 0 then answers[0].n else 0) + Counted(answers[1..])
  }

  /** Exactly when the loop over a chunk does not end: no answer ends it, and together they count fewer bytes than it
      has. Answers of 0, which is what a client without a messenger gives, never end it. */
  lemma {:induction false} UnfinishedIff(msg: Bytes, answers: seq<Answer>)
    ensures PushChunk(msg, answers).end == Unfinished
       <==> msg != [] && (forall a :: a in answers ==> Accepting(a)) && Counted(answers) < |msg|
    decreases |answers|
  {
    if msg == [] || answers == [] {
    } else {
      assert answers == [answers[0]] + answers[1..];
      if Accepting(answers[0]) {
        var n := answers[0].n;
        if n <= 0 {
          UnfinishedIff(msg, answers[1..]);
        } else if n < |msg| {
          UnfinishedIff(msg[n..], answers[1..]);
        }
      } else {
        assert answers[0] in answers;
      }
    }
  }

  /** So without a messenger the thread stays in the loop over the chunk it has read, whatever becomes of the client. */
  lemma {:induction false} StaysWithoutMessenger(msg: Bytes, answers: seq<Answer>)
    requires msg != [] && forall a :: a in answers ==> a == Returned(0)
    ensures PushChunk(msg, answers) == Push(0, Unfinished)
    decreases |answers|
  {
    if answers == [] {
    } else {
      assert answers[0] in answers && forall a :: a in answers[1..] ==> a in answers;
      StaysWithoutMessenger(msg, answers[1..]);
    }
  }

  // ----- A whole run.

  function Concat(chunks: seq<Bytes>): Bytes {
    if chunks == [] then [] else Concat(chunks[..|chunks| - 1]) + chunks[|chunks| - 1]
  }

  /** What has been taken of each piece. */
  function Taken(pieces: seq<Piece>): (r: seq<Bytes>)
    requires forall i :: 0 <= i < |pieces| ==> pieces[i].push.taken <= |pieces[i].chunk|
    ensures |r| == |pieces|
  {
    seq(|pieces|, i requires 0 <= i < |pieces| => pieces[i].chunk[..pieces[i].push.taken])
  }

  function ChunksOf(pieces: seq<Piece>): (r: seq<Bytes>)
    ensures |r| == |pieces|
  {
    seq(|pieces|, i requires 0 <= i < |pieces| => pieces[i].chunk)
  }

  /** The chunks the socket gives, in order. */
  function ChunksRead(turns: seq<Turn>): seq<Bytes> {
    if turns == [] then []
    else
      (if turns[0].read.Chunk? && turns[0].read.bytes != [] then [turns[0].read.bytes] else []) + ChunksRead(turns[1..])
  }

  /** A piece is whole unless the engine refused the rest of it or the push failed; only the last can be unfinished. */
  predicate Sound(piece: Piece, last: bool) {
    && piece.push.taken <= |piece.chunk|
    && (piece.push.end == Delivered <==> piece.push.taken == |piece.chunk|)
    && (piece.push.end == Unfinished ==> last)
  }

  ghost predicate Conserved(start: Bytes, p: Pump) {
    && (forall i :: 0 <= i < |p.pieces| ==> Sound(p.pieces[i], i == |p.pieces| - 1 && p.progress == Stuck))
    && p.consumed == start + Concat(Taken(p.pieces))
  }

  lemma TurnConserves(start: Bytes, p: Pump, t: Turn)
    requires Conserved(start, p) && p.progress == Running
    ensures Conserved(start, TakeTurn(p, t))
    ensures
      ChunksOf(TakeTurn(p, t).pieces) == ChunksOf(p.pieces) + ChunksRead([t])
      || (TakeTurn(p, t).progress == Left && TakeTurn(p, t).pieces == p.pieces)
  {
    var q := TakeTurn(p, t);
    assert [t][1..] == [];
    if q.pieces != p.pieces {
      ChunkEndsTell(t.read.bytes, t.answers);
      assert Taken(q.pieces)[..|p.pieces|] == Taken(p.pieces);
    }
  }

  /** Byte conservation: whatever is read and however it is taken, the engine has consumed the chunks in the order they
      were read, each of them whole but for the rest of one that was refused or whose push failed. */
  lemma {:induction false} BytesAreConserved(start: Bytes, p: Pump, turns: seq<Turn>)
    requires Conserved(start, p)
    ensures Conserved(start, RunTurns(p, turns))
    ensures ChunksOf(RunTurns(p, turns).pieces) <= ChunksOf(p.pieces) + ChunksRead(turns)
    decreases |turns|
  {
    if turns != [] && p.progress == Running {
      TurnConserves(start, p, turns[0]);
      var q := TakeTurn(p, turns[0]);
      BytesAreConserved(start, q, turns[1..]);
      assert [turns[0]][1..] == [];
      assert ChunksRead(turns) == ChunksRead([turns[0]]) + ChunksRead(turns[1..]);
    }
  }

  lemma AllDelivered(pieces: seq<Piece>)
    requires forall i :: 0 <= i < |pieces| ==> pieces[i].push.taken == |pieces[i].chunk|
    ensures Taken(pieces) == ChunksOf(pieces)
  {
    forall i | 0 <= i < |pieces| ensures Taken(pieces)[i] == ChunksOf(pieces)[i] {
      assert pieces[i].push.taken == |pieces[i].chunk|;
    }
  }

  /** So when nothing was refused and no push failed, the engine has consumed exactly what was read. */
  lemma UnrefusedIsComplete(p: Pump, turns: seq<Turn>)
    requires p.pieces == [] && p.progress == Running && RunTurns(p, turns).progress != Stuck
    requires forall i :: 0 <= i < |RunTurns(p, turns).pieces| ==>
      RunTurns(p, turns).pieces[i].push.end != Dropped && RunTurns(p, turns).pieces[i].push.end != Failed
    ensures
      var q := RunTurns(p, turns);
      q.consumed == p.consumed + Concat(ChunksOf(q.pieces)) && ChunksOf(q.pieces) <= ChunksRead(turns)
  {
    assert Taken([]) == [];
    BytesAreConserved(p.consumed, p, turns);
    var q := RunTurns(p, turns);
    forall i | 0 <= i < |q.pieces| ensures q.pieces[i].push.taken == |q.pieces[i].chunk| {
      assert Sound(q.pieces[i], false);
    }
    AllDelivered(q.pieces);
  }

  /** The turn ends the thread: it is stopped, the connection is reset, or nothing or an empty chunk is read. */
  predicate Ends(t: Turn) {
    t.leaves || t.read.Reset? || t.read.NoChunk? || (t.read.Chunk? && (t.stopped || t.read.bytes == []))
  }

  /** The thread ends at the first turn that ends it, with the sockets closed, and it asks for a retry exactly if that
      turn was a reset outside of a stop: a stream that the server closes in order is no reason to retry. */
  lemma {:induction false} RetriesIffReset(p: Pump, turns: seq<Turn>)
    requires p.progress == Running && p.socketsOpen && !p.retried
    ensures
      var q := RunTurns(p, turns);
      && (q.socketsOpen <==> q.progress != Left)
      && (q.progress == Left <==> exists i :: EndsAt(p, turns, i))
      && forall i :: EndsAt(p, turns, i) ==>
           (q.retried <==> !turns[i].leaves && turns[i].read.Reset? && !turns[i].quitting)
    decreases |turns|
  {
    var q := RunTurns(p, turns);
    if turns != [] {
      var p1 := TakeTurn(p, turns[0]);
      if p1.progress == Running {
        RetriesIffReset(p1, turns[1..]);
        forall i ensures i > 0 && EndsAt(p1, turns[1..], i - 1) <==> EndsAt(p, turns, i) {
          if 0 < i < |turns| { assert turns[1..][..i - 1] == turns[..i][1..]; }
        }
        if q.progress == Left {
          var i :| EndsAt(p1, turns[1..], i);
          assert EndsAt(p, turns, i + 1);
        }
      } else {
        assert turns[..0] == [];
        assert EndsAt(p, turns, 0) <==> p1.progress == Left;
        forall i | 0 < i < |turns| ensures !EndsAt(p, turns, i) {
          assert turns[..i][0] == turns[0] && RunTurns(p1, turns[..i][1..]) == p1;
        }
      }
    }
  }

  /** The thread is still running at turn `i`, which ends it. */
  ghost predicate EndsAt(p: Pump, turns: seq<Turn>, i: int) {
    0 <= i < |turns| && RunTurns(p, turns[..i]).progress == Running && Ends(turns[i])
  }

  // ----- The thread.

  class Incoming {
    var consumed: Bytes
    var pieces: seq<Piece>
    var socketsOpen: bool
    var retried: bool

    constructor ()
      ensures View(Running) == Pump([], [], true, false, Running)
    {
      consumed, pieces, socketsOpen, retried := [], [], true, false;
    }

    function View(progress: Progress): Pump
      reads this
    {
      Pump(consumed, pieces, socketsOpen, retried, progress)
    }

    /** The loop over a chunk, with proton_push and the engine behind it. */
    method PushAll(chunk: Bytes, answers: seq<Answer>) returns (push: Push)
      modifies this`consumed
      ensures push == PushChunk(chunk, answers)
      ensures consumed == old(consumed) + chunk[..push.taken]
    {
      var msg, left := chunk, answers;
      var taken := 0;
      while msg != []
        invariant 0 <= taken <= |chunk| && msg == chunk[taken..]
        invariant consumed == old(consumed) + chunk[..taken]
        invariant PushChunk(chunk, answers) ==
          var rest := PushChunk(msg, left); Push(taken + rest.taken, rest.end)
        decreases |left|, |msg|
      {
        if left == [] { return Push(taken, Unfinished); }
        var answer := left[0];
        left := left[1..];
        if answer.Threw? { return Push(taken, Failed); }
        var n := answer.n;
        if n > 0 {
          var m := Least(n, |msg|);
          consumed := consumed + msg[..m];
          assert chunk[..taken + m] == chunk[..taken] + msg[..m];
        }
        if n == -2 { return Push(taken, Dropped); }
        if n > 0 {
          if n < |msg| {
            msg := msg[n..];
            taken := taken + n;
          } else {
            taken := taken + |msg|;
            msg := [];
          }
        }
      }
      push := Push(taken, Delivered);
    }

    method IncomingThread(turns: seq<Turn>) returns (progress: Progress)
      modifies this
      ensures View(progress) == RunTurns(old(View(Running)), turns)
    {
      progress := Running;
      var i := 0;
      while i < |turns| && progress == Running
        invariant i <= |turns|
        invariant RunTurns(View(progress), turns[i..]) == RunTurns(old(View(Running)), turns)
      {
        ghost var before := View(Running);
        var t := turns[i];
        if t.leaves || !socketsOpen {
          progress := Left;
        } else {
          match t.read {
            case Threw =>
            case Reset =>
              if !t.quitting { retried := true; }
              progress := Left;
            case NoChunk =>
              progress := Left;
            case Chunk(bytes) =>
              if t.stopped || bytes == [] {
                progress := Left;
              } else {
                var push := PushAll(bytes, t.answers);
                pieces := pieces + [Piece(bytes, push)];
                if push.end == Unfinished { progress := Stuck; }
              }
          }
        }
        if progress == Left { socketsOpen := false; }
        assert View(progress) == TakeTurn(before, t);
        assert turns[i..][1..] == turns[i + 1..];
        i := i + 1;
      }
    }
  }
}
