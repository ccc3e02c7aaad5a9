/** No interleaving of the group's pipes deadlocks, and every run ends after the same number of
    steps.  The argument: order the instructions of a round as one sequential execution would; the
    unexecuted instruction that comes first in that order always finds its flags set. */
module GroupProgress {
  import opened GroupProgram
  import opened GroupFlags

  // Position of an instruction in the sequential execution of one round.
  function Rank(c: Config, p: Pipe, k: nat): nat {
    if c.variant.K256? then
      match p
      case CubeS => if k == 0 then 0 else 30 + k
      case CubeMte2 => 1 + k
      case CubeM =>
        if k == 0 then 4
        else if k <= 8 then 9 + 5 * ((k - 1) / 2) + (k - 1) % 2
        else if k == 9 then 27 else 29
      case CubeMte1 =>
        if k == 0 then 5
        else if k <= 12 then 6 + 5 * ((k - 1) / 3) + (k - 1) % 3
        else if k == 13 then 26 else 28
      case CubeFix => if k == 0 then 30 else 32 + k
      case _ => 37 + LaneRank(p, k)
    else
      match p
      case CubeS => if k == 0 then 0 else 24 + k
      case CubeMte2 => 1 + k
      case CubeM => if k <= 1 then 4 + k else if k <= 4 then 9 + k else 15 + k
      case CubeMte1 => if k <= 4 then 6 + k else if k <= 10 then 9 + k else 27
      case CubeFix => if k == 0 then 24 else 27 + k
      case _ => 37 + LaneRank(p, k)
  }

  function LaneRank(p: Pipe, k: nat): nat {
    if p.LaneS? then k
    else if p.LaneV? then (if k <= 2 then 2 + k else 6 + k)
    else 5 + k
  }

  function Key(c: Config, p: Pipe, at: Pos): nat { 100 * at.r + Rank(c, p, at.k) }

  // No other pipe is behind p.
  ghost predicate Frontier(c: Config, pc: Pipe -> Pos, p: Pipe) {
    forall q :: Key(c, p, pc(p)) <= Key(c, q, pc(q))
  }

  lemma RankIncreases(c: Config, p: Pipe, j: nat, k: nat)
    requires j < k < Len(c, p)
    ensures Rank(c, p, j) < Rank(c, p, k) < 100
  {}

  lemma RankBounded(c: Config, p: Pipe, k: nat)
    requires k < Len(c, p)
    ensures Rank(c, p, k) < 100
  {}

  lemma {:induction false} CountMonotone(c: Config, kind: Kind, a: nat, b: nat)
    requires a <= b
    ensures Count(c, kind, a) <= Count(c, kind, b)
  {
    if a < b { CountMonotone(c, kind, a, b - 1); }
  }

  lemma {:induction false} CountEvery(c: Config, r: nat)
    requires r <= c.Rounds()
    ensures Count(c, Every, r) == r
  {
    if r > 0 { CountEvery(c, r - 1); }
  }

  lemma {:induction false} CountHasSuccessor(c: Config, r: nat)
    ensures Count(c, HasSuccessor, r)
         == if r + 2 <= c.Rounds() then r else if c.Rounds() < 2 then 0 else c.Rounds() - 2
  {
    if r > 0 { CountHasSuccessor(c, r - 1); }
  }

  // The cube waits in round r + 2 for what the lanes post in round r.
  lemma {:induction false} FreeShift(c: Config, slot: nat, r: nat)
    requires r + 2 <= c.Rounds()
    ensures Count(c, FreeWait(slot), r + 2) == Count(c, FreeSet(slot), r)
  {
    if r > 0 { FreeShift(c, slot, r - 1); }
    else { assert Count(c, FreeWait(slot), 1) == 0; }
  }

  lemma {:induction false} FreeEarly(c: Config, slot: nat, r: nat)
    requires r <= 2
    ensures Count(c, FreeWait(slot), r) == 0
  {
    if r > 0 { FreeEarly(c, slot, r - 1); }
  }

  lemma {:induction false} FreeTail(c: Config, slot: nat, r: nat, to: nat)
    requires r <= to && c.Rounds() <= r + 2
    ensures Count(c, FreeSet(slot), to) == Count(c, FreeSet(slot), r)
  {
    if r < to { FreeTail(c, slot, r, to - 1); }
  }

  lemma RankOrder(c: Config, p: Pipe, j: nat, k: nat)
    requires j < Len(c, p) && k < Len(c, p)
    ensures Rank(c, p, j) < 100
    ensures Rank(c, p, j) < Rank(c, p, k) ==> j < k
  {
    if k < j { RankIncreases(c, p, k, j); }
    RankBounded(c, p, j);
  }

  lemma KeyOrder(r: nat, r': nat, x: nat, x': nat)
    requires x < 100 && x' < 100 && 100 * r + x <= 100 * r' + x'
    ensures r < r' || (r == r' && x <= x')
  {}

  // A setter ranked before a frontier instruction has already run in the frontier round.
  lemma SetterPassed(c: Config, pc: Pipe -> Pos, p: Pipe, s: Site)
    requires Frontier(c, pc, p) && s.k < Len(c, s.p)
    requires forall q :: pc(q).k < Len(c, q)
    ensures DoneAt(c, pc, s) >= Count(c, s.kind, pc(p).r)
      + (if Rank(c, s.p, s.k) < Rank(c, p, pc(p).k) && Sel(c, s.kind, pc(p).r) then 1 else 0)
  {
    var r := pc(p).r;
    var at := pc(s.p);
    RankBounded(c, p, pc(p).k);
    RankOrder(c, s.p, s.k, at.k);
    RankBounded(c, s.p, at.k);
    assert Key(c, p, pc(p)) <= Key(c, s.p, at);
    KeyOrder(r, at.r, Rank(c, p, pc(p).k), Rank(c, s.p, at.k));
    if at.r > r { CountMonotone(c, s.kind, r + 1, at.r); }
  }

  // p is behind every other pipe, in an unfinished round, about to wait for f.
  ghost predicate Waits(c: Config, pc: Pipe -> Pos, p: Pipe, f: Flag) {
    && c.WellFormed() && Frontier(c, pc, p) && pc(p).r < c.Rounds()
    && (forall q :: pc(q).k < Len(c, q))
    && Hits(c, p, pc(p).r, pc(p).k, WaitSites(c, f)) >= 1
  }

  lemma GoServed(c: Config, pc: Pipe -> Pos, p: Pipe, f: Flag)
    requires Waits(c, pc, p, f) && (f.Go? || f.GoLate?)
    ensures Tokens(c, pc, f) >= 1
  {
    SetterPassed(c, pc, p, SetSites(c, f).s);
    CountEvery(c, pc(p).r);
    CountHasSuccessor(c, pc(p).r);
  }

  lemma L1Served(c: Config, pc: Pipe -> Pos, p: Pipe, f: Flag)
    requires Waits(c, pc, p, f) && (f.L1Writable? || f.L1Readable?)
    ensures Tokens(c, pc, f) >= 1
  {
    SetterPassed(c, pc, p, SetSites(c, f).s);
  }

  lemma L0Served(c: Config, pc: Pipe -> Pos, p: Pipe, f: Flag)
    requires Waits(c, pc, p, f) && (f.L0A? || f.L0B?)
    ensures Tokens(c, pc, f) >= 1
  {
    SetterPassed(c, pc, p, SetSites(c, f).s);
    SetterPassed(c, pc, p, SetSites(c, f).t);
  }

  lemma Mte1MServed(c: Config, pc: Pipe -> Pos, p: Pipe)
    requires Waits(c, pc, p, Mte1M)
    ensures Tokens(c, pc, Mte1M) >= 1
  {
    if c.variant.K256? { Mte1MServed256(c, pc, p); } else { Mte1MServed128(c, pc, p); }
  }

  lemma Mte1MServed128(c: Config, pc: Pipe -> Pos, p: Pipe)
    requires Waits(c, pc, p, Mte1M) && !c.variant.K256?
    ensures Tokens(c, pc, Mte1M) >= 1
  {
    SetterPassed(c, pc, p, SetSites(c, Mte1M).s);
    SetterPassed(c, pc, p, SetSites(c, Mte1M).t);
  }

  lemma Mte1MServed256(c: Config, pc: Pipe -> Pos, p: Pipe)
    requires Waits(c, pc, p, Mte1M) && c.variant.K256?
    ensures Tokens(c, pc, Mte1M) >= 1
  {
    SetterPassed(c, pc, p, SetSites(c, Mte1M).s);
    SetterPassed(c, pc, p, SetSites(c, Mte1M).t);
    SetterPassed(c, pc, p, SetSites(c, Mte1M).u);
    SetterPassed(c, pc, p, SetSites(c, Mte1M).v);
  }

  lemma AccumulatorServed(c: Config, pc: Pipe -> Pos, p: Pipe, f: Flag)
    requires Waits(c, pc, p, f) && (f.L0Drain? || f.FixM? || f.MFix?)
    ensures Tokens(c, pc, f) >= 1
  {
    SetterPassed(c, pc, p, SetSites(c, f).s);
  }

  lemma CrossCoreServed(c: Config, pc: Pipe -> Pos, p: Pipe, f: Flag)
    requires Waits(c, pc, p, f) && (f.Ready? || f.Free?)
    ensures Tokens(c, pc, f) >= 1
  {
    SetterPassed(c, pc, p, SetSites(c, f).s);
    var r := pc(p).r;
    if f.Free? {
      FreeShift(c, f.slot, r - 2);
      assert Sel(c, FreeSet(f.slot), r - 2);
      CountMonotone(c, FreeSet(f.slot), r - 1, r);
    }
  }

  lemma LaneServed(c: Config, pc: Pipe -> Pos, p: Pipe, f: Flag)
    requires Waits(c, pc, p, f) && (f.VMte2? || f.Mte2V?)
    ensures Tokens(c, pc, f) >= 1
  {
    SetterPassed(c, pc, p, SetSites(c, f).s);
  }

  // Every flag a frontier instruction waits for has a token.
  lemma FrontierServed(c: Config, pc: Pipe -> Pos, p: Pipe, f: Flag)
    requires Waits(c, pc, p, f)
    ensures Tokens(c, pc, f) >= 1
  {
    match f
    case Go(_) => GoServed(c, pc, p, f);
    case GoLate(_) => GoServed(c, pc, p, f);
    case L1Writable(_) => L1Served(c, pc, p, f);
    case L1Readable(_) => L1Served(c, pc, p, f);
    case L0A(_) => L0Served(c, pc, p, f);
    case L0B(_) => L0Served(c, pc, p, f);
    case Mte1M => Mte1MServed(c, pc, p);
    case L0Drain => AccumulatorServed(c, pc, p, f);
    case FixM => AccumulatorServed(c, pc, p, f);
    case MFix => AccumulatorServed(c, pc, p, f);
    case Ready(_, _) => CrossCoreServed(c, pc, p, f);
    case Free(_, _) => CrossCoreServed(c, pc, p, f);
    case VMte2(_) => LaneServed(c, pc, p, f);
    case Mte2V(_) => LaneServed(c, pc, p, f);
  }

  lemma FrontierEnabled(c: Config, s: State, p: Pipe)
    requires c.WellFormed() && FlagsInv(c, s) && Frontier(c, s.pc, p) && s.pc(p).r < c.Rounds()
    ensures Enabled(c, s, p)
  {
    var at := s.pc(p);
    forall f | f in Fetch(c, p, at.r, at.k).waits
      ensures s.flags(f) >= 1
    {
      EveryInstrListed(c, p, at.r, at.k, f);
      FrontierServed(c, s.pc, p, f);
    }
  }

  function AllPipes(): seq<Pipe> {
    [CubeS, CubeMte2, CubeMte1, CubeM, CubeFix,
     LaneS(Lane0), LaneMte2(Lane0), LaneV(Lane0), LaneS(Lane1), LaneMte2(Lane1), LaneV(Lane1)]
  }

  lemma AllPipesListed(p: Pipe)
    ensures p in AllPipes()
  {
    var all := AllPipes();
    match p
    case CubeS => assert all[0] == p;
    case CubeMte2 => assert all[1] == p;
    case CubeMte1 => assert all[2] == p;
    case CubeM => assert all[3] == p;
    case CubeFix => assert all[4] == p;
    case LaneS(l) => assert all[if l.Lane0? then 5 else 8] == p;
    case LaneMte2(l) => assert all[if l.Lane0? then 6 else 9] == p;
    case LaneV(l) => assert all[if l.Lane0? then 7 else 10] == p;
  }

  lemma {:induction false} Furthest(c: Config, pc: Pipe -> Pos, pipes: seq<Pipe>) returns (p: Pipe)
    requires pipes != []
    ensures p in pipes && forall q :: q in pipes ==> Key(c, p, pc(p)) <= Key(c, q, pc(q))
  {
    if |pipes| == 1 {
      p := pipes[0];
    } else {
      var best := Furthest(c, pc, pipes[1..]);
      p := if Key(c, pipes[0], pc(pipes[0])) < Key(c, best, pc(best)) then pipes[0] else best;
    }
  }

  // Deadlock freedom: an unfinished group can always take a step.
  lemma SomePipeEnabled(c: Config, s: State) returns (p: Pipe)
    requires c.WellFormed() && FlagsInv(c, s) && !Finished(c, s)
    ensures Enabled(c, s, p)
  {
    p := Furthest(c, s.pc, AllPipes());
    forall q
      ensures Key(c, p, s.pc(p)) <= Key(c, q, s.pc(q))
    {
      AllPipesListed(q);
    }
    var q :| s.pc(q).r != c.Rounds();
    RankBounded(c, q, s.pc(q).k);
    FrontierEnabled(c, s, p);
  }

  // ---------------------------------------------------------------- termination

  function StepsLeft(c: Config, p: Pipe, at: Pos): int {
    (c.Rounds() - at.r) * Len(c, p) - at.k
  }

  ghost function Remaining(c: Config, pc: Pipe -> Pos): int {
    StepsLeft(c, CubeS, pc(CubeS)) + StepsLeft(c, CubeMte2, pc(CubeMte2))
    + StepsLeft(c, CubeMte1, pc(CubeMte1)) + StepsLeft(c, CubeM, pc(CubeM))
    + StepsLeft(c, CubeFix, pc(CubeFix))
    + LaneRemaining(c, pc, Lane0) + LaneRemaining(c, pc, Lane1)
  }

  ghost function LaneRemaining(c: Config, pc: Pipe -> Pos, l: Lane): int {
    StepsLeft(c, LaneS(l), pc(LaneS(l))) + StepsLeft(c, LaneMte2(l), pc(LaneMte2(l)))
    + StepsLeft(c, LaneV(l), pc(LaneV(l)))
  }

  // Instruction positions of a whole run.
  function RunLength(c: Config): nat {
    c.Rounds() * (if c.variant.K256? then 59 else 54)
  }

  lemma NextStepsLeft(c: Config, p: Pipe, at: Pos)
    requires at.k < Len(c, p)
    ensures StepsLeft(c, p, Next(c, p, at)) == StepsLeft(c, p, at) - 1
  {
    if at.k + 1 == Len(c, p) {
      var m, len := c.Rounds() - at.r, Len(c, p);
      assert (m - 1) * len == m * len - len;
    }
  }

  lemma StepShrinks(c: Config, s: State, p: Pipe)
    requires s.pc(p).k < Len(c, p)
    ensures Remaining(c, Exec(c, s, p).pc) == Remaining(c, s.pc) - 1
  {
    NextStepsLeft(c, p, s.pc(p));
    OneMoves(c, s.pc, Exec(c, s, p).pc, p);
  }

  // One pipe's step is one step of the group.
  lemma OneMoves(c: Config, before: Pipe -> Pos, after: Pipe -> Pos, p: Pipe)
    requires StepsLeft(c, p, after(p)) == StepsLeft(c, p, before(p)) - 1
    requires forall q :: q != p ==> after(q) == before(q)
    ensures Remaining(c, after) == Remaining(c, before) - 1
  {
    match p
    case LaneS(l) => assert l.Lane0? || l.Lane1?;
    case LaneMte2(l) => assert l.Lane0? || l.Lane1?;
    case LaneV(l) => assert l.Lane0? || l.Lane1?;
    case _ =>
  }

  lemma StepsLeftBounds(c: Config, p: Pipe, at: Pos)
    requires at.r <= c.Rounds() && at.k < Len(c, p) && (at.r == c.Rounds() ==> at.k == 0)
    ensures StepsLeft(c, p, at) >= 0
    ensures StepsLeft(c, p, at) == 0 <==> at.r == c.Rounds()
  {
    if at.r < c.Rounds() {
      var m, len := c.Rounds() - at.r, Len(c, p);
      assert m * len >= len by { assert (m - 1) * len >= 0; }
    }
  }

  lemma RemainingBounds(c: Config, s: State)
    requires InRange(c, s)
    ensures Remaining(c, s.pc) >= 0
    ensures Remaining(c, s.pc) == 0 <==> Finished(c, s)
  {
    forall p
      ensures StepsLeft(c, p, s.pc(p)) >= 0
      ensures StepsLeft(c, p, s.pc(p)) == 0 <==> s.pc(p).r == c.Rounds()
    {
      StepsLeftBounds(c, p, s.pc(p));
    }
    if Remaining(c, s.pc) == 0 {
      forall p
        ensures s.pc(p).r == c.Rounds()
      {
        match p
        case LaneS(l) => assert l.Lane0? || l.Lane1?;
        case LaneMte2(l) => assert l.Lane0? || l.Lane1?;
        case LaneV(l) => assert l.Lane0? || l.Lane1?;
        case _ =>
      }
    }
  }

  lemma {:induction false} PlayKeepsFlags(c: Config, schedule: seq<Pipe>)
    requires c.WellFormed() && Play(c, schedule).Reached?
    ensures FlagsInv(c, Play(c, schedule).s)
    ensures Remaining(c, Play(c, schedule).s.pc) == RunLength(c) - |schedule|
  {
    if schedule == [] {
      InitKeepsFlags(c);
    } else {
      var before := schedule[..|schedule| - 1];
      PlayKeepsFlags(c, before);
      StepKeepsFlags(c, Play(c, before).s, schedule[|schedule| - 1]);
      StepShrinks(c, Play(c, before).s, schedule[|schedule| - 1]);
    }
  }

  /** Every legal interleaving has at most RunLength steps; it can be extended exactly while it is
      shorter, and a run of that length has finished every pipe. */
  lemma EveryRunCompletes(c: Config, schedule: seq<Pipe>)
    requires c.WellFormed() && Play(c, schedule).Reached?
    ensures |schedule| <= RunLength(c)
    ensures |schedule| == RunLength(c) <==> Finished(c, Play(c, schedule).s)
    ensures |schedule| < RunLength(c) <==> exists p :: Enabled(c, Play(c, schedule).s, p)
  {
    PlayKeepsFlags(c, schedule);
    var s := Play(c, schedule).s;
    RemainingBounds(c, s);
    if !Finished(c, s) {
      var p := SomePipeEnabled(c, s);
    }
  }

  // ---------------------------------------------------------------- flag values

  lemma {:induction false} CountFree(c: Config, slot: nat)
    ensures Count(c, FreeSet(slot), c.Rounds()) == Count(c, FreeWait(slot), c.Rounds())
  {
    var n := c.Rounds();
    if n >= 2 {
      FreeShift(c, slot, n - 2);
      FreeTail(c, slot, n - 2, n);
    } else {
      FreeEarly(c, slot, n);
      FreeTail(c, slot, 0, n);
    }
  }

  lemma IssueFlagsAtExit(c: Config, pc: Pipe -> Pos, f: Flag)
    requires f.Go? || f.GoLate?
    requires forall p :: pc(p) == Pos(c.Rounds(), 0)
    ensures Tokens(c, pc, f) == 0
  {
    CountEvery(c, c.Rounds());
    CountHasSuccessor(c, c.Rounds());
  }

  lemma CubeFlagsAtExit(c: Config, pc: Pipe -> Pos, f: Flag)
    requires f.L1Writable? || f.L1Readable? || f.L0A? || f.L0B? || f.Mte1M? || f.L0Drain? || f.FixM? || f.MFix?
    requires forall p :: pc(p) == Pos(c.Rounds(), 0)
    ensures Tokens(c, pc, f) == InitFlag(c, f)
  {}

  lemma LaneFlagsAtExit(c: Config, pc: Pipe -> Pos, f: Flag)
    requires f.Ready? || f.Free? || f.VMte2? || f.Mte2V?
    requires forall p :: pc(p) == Pos(c.Rounds(), 0)
    ensures Tokens(c, pc, f) == 0
  {
    if f.Free? { CountFree(c, f.slot); }
  }

  /** At exit every flag is back at zero, except the persistent tokens that the cube's final drain
      consumes: each L1 stage writable once and the accumulator free once. */
  lemma FlagsAtExit(c: Config, schedule: seq<Pipe>, f: Flag)
    requires c.WellFormed() && Play(c, schedule).Reached?
    requires Finished(c, Play(c, schedule).s)
    ensures Play(c, schedule).s.flags(f)
         == (if f.L1Writable? || f.FixM? then InitFlag(c, f) else 0)
  {
    PlayKeepsFlags(c, schedule);
    var s := Play(c, schedule).s;
    assert forall p :: s.pc(p) == Pos(c.Rounds(), 0);
    if f.Go? || f.GoLate? {
      IssueFlagsAtExit(c, s.pc, f);
    } else if f.Ready? || f.Free? || f.VMte2? || f.Mte2V? {
      LaneFlagsAtExit(c, s.pc, f);
    } else {
      CubeFlagsAtExit(c, s.pc, f);
    }
  }
}
