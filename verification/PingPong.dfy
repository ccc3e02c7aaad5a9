/** v03's two L1 stages: round r packs its tile into stage r % 2 while the other stage holds its neighbour's,
    so a copy overlaps the loads of the round before. */
module PingPong {
  import opened GroupProgram
  import opened GroupFlags
  import opened GroupProgress
  import opened GroupWindows
  import opened GroupData
  import opened GroupTokens

  /** In every interleaving, when MTE1 loads a part for round r, stage r % 2 holds round r's tile. */
  lemma LoadsFindStage(c: Config, schedule: seq<Pipe>)
    requires c.WellFormed() && c.variant.K128PingPong? && Play(c, schedule).Reached?
    requires
      var at := Play(c, schedule).s.pc(CubeMte1);
      var act := Fetch(c, CubeMte1, at.r, at.k).act;
      at.r < c.Rounds() && (act.LoadA? || act.LoadB?)
    ensures
      var s := Play(c, schedule).s;
      s.data.l1(s.pc(CubeMte1).r % 2) == s.pc(CubeMte1).r
  {
    PlayKeepsData(c, schedule);
    StageHoldsRound(c, Play(c, schedule).s);
  }

  /** A load takes its part from that stage. */
  lemma LoadReadsStage(c: Config, s: State, part: nat)
    requires c.variant.K128PingPong? && Fetch(c, CubeMte1, s.pc(CubeMte1).r, s.pc(CubeMte1).k).act == LoadA(part)
    ensures Exec(c, s, CubeMte1).data.l0a(part) == (s.data.l1(s.pc(CubeMte1).r % 2), part)
  {}

  /** A copy fills stage r % 2, after waiting for that stage's own token, and leaves the other stage alone. */
  lemma CopyFillsStage(c: Config, s: State)
    requires c.variant.K128PingPong? && Fetch(c, CubeMte2, s.pc(CubeMte2).r, s.pc(CubeMte2).k).act == CopyL1
    ensures
      var r, t := s.pc(CubeMte2).r, Exec(c, s, CubeMte2);
      && t.data.l1(r % 2) == r && t.data.l1(1 - r % 2) == s.data.l1(1 - r % 2)
      && L1Writable(r % 2) in Fetch(c, CubeMte2, r, 0).waits && L1Writable(1 - r % 2) !in Fetch(c, CubeMte2, r, 0).waits
  {}

  // ---------------------------------------------------------------- the overlap

  function LoadBound(r: nat): nat { 100 * r + 7 }

  lemma LoadAt(c: Config, at: Pos, r: nat)
    requires c.variant.K128PingPong? && at.k < Len(c, CubeMte1) && Key(c, CubeMte1, at) >= LoadBound(r) && !Past(at, r, 1)
    ensures at == Pos(r, 1)
  {}

  lemma CopyAt(c: Config, at: Pos, r: nat)
    requires c.variant.K128PingPong? && at.k < Len(c, CubeMte2) && Key(c, CubeMte2, at) >= LoadBound(r) && !Past(at, r + 1, 0)
    ensures at == Pos(r + 1, 0)
  {}

  lemma ScalarAt(c: Config, at: Pos, r: nat)
    requires c.variant.K128PingPong? && at.k < Len(c, CubeS) && Key(c, CubeS, at) >= LoadBound(r) && !Past(at, r, 1)
    ensures at == Pos(r, 1)
  {}

  // MTE1 is about to load round r's first part; MTE2 is about to begin round r + 1.
  ghost predicate Loading(c: Config, pc: Pipe -> Pos, r: nat) {
    pc(CubeMte1) == Pos(r, 1) && pc(CubeMte2) == Pos(r + 1, 0) && pc(CubeS) == Pos(r, 1)
  }

  lemma StopsLoading(c: Config, pc: Pipe -> Pos, r: nat)
    requires c.variant.K128PingPong? && StopsAt(c, pc, LoadBound(r)) && forall p :: Key(c, p, pc(p)) >= LoadBound(r)
    requires forall p :: pc(p).k < Len(c, p)
    ensures Loading(c, pc, r)
  {
    assert Key(c, CubeMte1, Pos(r, 1)) == LoadBound(r);
    LoadAt(c, pc(CubeMte1), r);
    assert Key(c, CubeMte2, Pos(r + 1, 0)) >= LoadBound(r);
    CopyAt(c, pc(CubeMte2), r);
    assert Key(c, CubeS, Pos(r, 1)) >= LoadBound(r);
    ScalarAt(c, pc(CubeS), r);
  }

  // The copy of round r + 1 is already issued, and its stage is free.
  lemma CopyMayBegin(c: Config, s: State, r: nat)
    requires c.WellFormed() && FlagsInv(c, s) && c.variant.K128PingPong? && r + 1 < c.Rounds()
    requires c.Valid(r) && c.Valid(r + 1) && Loading(c, s.pc, r)
    ensures Enabled(c, s, CubeMte2)
  {
    assert Holds(c, s, Go(CubeMte2)) && Holds(c, s, L1Writable((r + 1) % 2));
    CountEvery(c, r + 1);
    CountHasSuccessor(c, r);
  }

  lemma CopyRuns(c: Config, schedule: seq<Pipe>, r: nat) returns (longer: seq<Pipe>)
    requires c.WellFormed() && c.variant.K128PingPong? && r + 1 < c.Rounds() && c.Valid(r) && c.Valid(r + 1)
    requires Play(c, schedule).Reached? && Loading(c, Play(c, schedule).s.pc, r)
    ensures Play(c, longer).Reached?
    ensures Play(c, longer).s.pc(CubeMte1) == Pos(r, 1) && Play(c, longer).s.pc(CubeMte2) == Pos(r + 1, 2)
  {
    PlayKeepsFlags(c, schedule);
    CopyMayBegin(c, Play(c, schedule).s, r);
    PlayExtends(c, schedule, CubeMte2);
    PlayExtends(c, schedule + [CubeMte2], CubeMte2);
    longer := schedule + [CubeMte2] + [CubeMte2];
  }

  lemma LoadingReached(c: Config, r: nat) returns (schedule: seq<Pipe>)
    requires c.WellFormed() && c.variant.K128PingPong? && r < c.Rounds()
    ensures Play(c, schedule).Reached? && Loading(c, Play(c, schedule).s.pc, r)
  {
    assert StopsAt(c, Init(c).pc, LoadBound(r));
    schedule := RunBelow(c, [], LoadBound(r));
    PlayKeepsFlags(c, schedule);
    assert InRange(c, Play(c, schedule).s);
    StopsLoading(c, Play(c, schedule).s.pc, r);
  }

  // Right after its copy, round r's tile is in its stage.
  lemma CopiedStage(c: Config, schedule: seq<Pipe>, r: nat)
    requires c.WellFormed() && c.variant.K128PingPong? && Play(c, schedule).Reached? && c.Valid(r)
    requires Play(c, schedule).s.pc(CubeMte2) == Pos(r, 2)
    ensures Play(c, schedule).s.data.l1(r % 2) == r
  {
    PlayKeepsData(c, schedule);
    assert L1Inv(c, Play(c, schedule).s);
  }

  // About to load round r with round r + 1 copied, both stages are full.
  lemma BothStages(c: Config, schedule: seq<Pipe>, r: nat)
    requires c.WellFormed() && c.variant.K128PingPong? && c.Valid(r) && c.Valid(r + 1) && Play(c, schedule).Reached?
    requires Play(c, schedule).s.pc(CubeMte1) == Pos(r, 1) && Play(c, schedule).s.pc(CubeMte2) == Pos(r + 1, 2)
    ensures Play(c, schedule).s.data.l1(r % 2) == r && Play(c, schedule).s.data.l1((r + 1) % 2) == r + 1
  {
    LoadsFindStage(c, schedule);
    CopiedStage(c, schedule, r + 1);
  }

  /** The overlap exists: for any two valid rounds in a row there is an interleaving in which MTE1 is about to
      load round r's first part while the other stage already holds round r + 1's tile. */
  lemma CopyOverlapsLoads(c: Config, r: nat) returns (s: State)
    requires c.WellFormed() && c.variant.K128PingPong? && c.Valid(r) && c.Valid(r + 1)
    ensures Reachable(c, s) && s.pc(CubeMte1) == Pos(r, 1)
    ensures Fetch(c, CubeMte1, r, 1).act == LoadA(0)
    ensures s.data.l1(r % 2) == r && s.data.l1((r + 1) % 2) == r + 1
  {
    var before := LoadingReached(c, r);
    var schedule := CopyRuns(c, before, r);
    BothStages(c, schedule, r);
    s := Play(c, schedule).s;
    assert Play(c, schedule) == Reached(s);
  }
}
