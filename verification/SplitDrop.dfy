/** Dropping the two halves of a split stream.  Each drop looks at the shared reference count, tries
    to send `TcpClose` if it is the last one, and only then gives up its reference. */
module SplitDrop {

  datatype Half = ReadHalf | WriteHalf

  datatype Stage = Held | Looked | Released

  /** `references` is the shared count, `attempts` the number of `try_send` calls with a `TcpClose`,
      `sent` the number of those that the command channel took. */
  datatype Halves = Halves(stages: map<Half, Stage>, references: nat, attempts: nat, sent: nat)

  /** The next thing the drop of a half does, with so much room in the command channel. */
  datatype Move = Move(half: Half, room: nat)

  function Split(): Halves {
    Halves(map[ReadHalf := Held, WriteHalf := Held], 2, 0, 0)
  }

  function Step(s: Halves, m: Move): Halves {
    if m.half !in s.stages then s
    else match s.stages[m.half]
      case Held =>
        var looked := s.stages[m.half := Looked];
        if s.references == 1
        then s.(stages := looked, attempts := s.attempts + 1, sent := s.sent + if m.room > 0 then 1 else 0)
        else s.(stages := looked)
      case Looked =>
        s.(stages := s.stages[m.half := Released], references := if s.references == 0 then 0 else s.references - 1)
      case Released => s
  }

  function Run(s: Halves, moves: seq<Move>): Halves
    decreases |moves|
  {
    if moves == [] then s else Run(Step(s, moves[0]), moves[1..])
  }

  predicate Counted(s: Halves) {
    && s.stages.Keys == {ReadHalf, WriteHalf}
    && s.references == Holds(s.stages[ReadHalf]) + Holds(s.stages[WriteHalf])
    && (s.attempts > 0 ==> !s.stages[ReadHalf].Held? && !s.stages[WriteHalf].Held?)
    && s.sent <= s.attempts <= 1
  }

  function Holds(stage: Stage): nat {
    if stage.Released? then 0 else 1
  }

  lemma {:induction false} RunCounted(s: Halves, moves: seq<Move>)
    requires Counted(s)
    ensures Counted(Run(s, moves))
    decreases |moves|
  {
    if moves != [] {
      RunCounted(Step(s, moves[0]), moves[1..]);
    }
  }

  /** However the two drops interleave, at most one `TcpClose` is attempted. */
  lemma OneAttemptAtMost(moves: seq<Move>)
    ensures Run(Split(), moves).sent <= Run(Split(), moves).attempts <= 1
  {
    RunCounted(Split(), moves);
  }

  function Count(moves: seq<Move>, h: Half): nat {
    if moves == [] then 0 else (if moves[0].half == h then 1 else 0) + Count(moves[1..], h)
  }

  /** Once both halves are dropped, one `TcpClose` was attempted if and only if one drop was over
      before the other looked at the count, for two drops that overlap both see the other's reference;
      and it was sent if and only if, besides, the command channel had room when the other looked. */
  lemma CloseSentIff(moves: seq<Move>)
    requires Count(moves, ReadHalf) == 2 && Count(moves, WriteHalf) == 2
    ensures |moves| == 4
    ensures Run(Split(), moves).attempts == 1 <==> moves[0].half == moves[1].half
    ensures Run(Split(), moves).sent == 1 <==> moves[0].half == moves[1].half && moves[2].room > 0
  {
    CountAll(moves);
    var a, b, c, d := moves[0], moves[1], moves[2], moves[3];
    assert moves[1..][1..][1..] == [d] && moves[1..][1..] == [c, d] && moves[1..] == [b, c, d];
    assert Count([d], ReadHalf) == if d.half.ReadHalf? then 1 else 0;
    var s1 := Step(Split(), a);
    var s2 := Step(s1, b);
    var s3 := Step(s2, c);
    var s4 := Step(s3, d);
    assert Run(s3, [d]) == Run(s4, []);
    assert Run(s2, [c, d]) == s4 by {
      assert [c, d][1..] == [d];
    }
    assert Run(s1, [b, c, d]) == s4 by {
      assert [b, c, d][1..] == [c, d];
    }
  }

  lemma {:induction false} CountAll(moves: seq<Move>)
    ensures Count(moves, ReadHalf) + Count(moves, WriteHalf) == |moves|
  {
    if moves != [] {
      CountAll(moves[1..]);
    }
  }
}
