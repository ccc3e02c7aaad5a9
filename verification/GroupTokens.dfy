/** How many posts a flag can carry at once.  Cross-core flags and ownership tokens never exceed one.
    Two event ids do: MTE1_M is shared by all K parts, and carries as many posts as there are parts in
    some interleaving of every group with a valid chunk; the K=128 task-local L0 events can be posted
    for the next round before the previous round's drain has consumed them. */
module GroupTokens {
  import opened GroupProgram
  import opened GroupFlags
  import opened GroupProgress
  import opened GroupWindows

  lemma DrainAtMostOne(c: Config, s: State)
    requires FlagsInv(c, s)
    ensures 0 <= s.flags(L0Drain) <= 1
  {
    assert Holds(c, s, L0Drain) && Holds(c, s, Mte1M);
  }

  /** Every single-owner flag is a binary semaphore in every reachable state. */
  lemma BinaryFlags(c: Config, s: State, f: Flag)
    requires FlagsInv(c, s)
    requires f.L1Writable? || f.L1Readable? || f.L0Drain? || f.FixM? || f.MFix?
          || f.Ready? || f.Free? || f.VMte2? || f.Mte2V?
    ensures 0 <= s.flags(f) <= 1
  {
    match f
    case L1Writable(st) => L1Ownership(c, s, st); assert Holds(c, s, L1Readable(st));
    case L1Readable(st) => L1Ownership(c, s, st); assert Holds(c, s, L1Writable(st));
    case L0Drain => DrainAtMostOne(c, s);
    case FixM => AccumulatorOwnership(c, s); assert Holds(c, s, MFix);
    case MFix => AccumulatorOwnership(c, s); assert Holds(c, s, FixM);
    case Ready(slot, l) => ReadyAtMostOne(c, s, slot, l);
    case Free(slot, l) => FreeAtMostOne(c, s, slot, l);
    case VMte2(l) => TileOwnership(c, s, l); assert Holds(c, s, Mte2V(l));
    case Mte2V(l) => TileOwnership(c, s, l); assert Holds(c, s, VMte2(l));
  }

  // MTE1 posts the next task's parts only after M consumed the previous task's.
  lemma PartsPosted(c: Config, s: State)
    requires FlagsInv(c, s)
    ensures 0 <= s.flags(Mte1M) <= c.Parts()
  {
    var m, m1 := s.pc(CubeM), s.pc(CubeMte1);
    assert Holds(c, s, Mte1M);
    if c.variant.K256? {
      assert Holds(c, s, L0Drain);
    } else {
      assert Holds(c, s, L0A(0)) && Holds(c, s, L0A(1));
      CountEvery(c, m.r);
      CountEvery(c, m1.r);
      if m1.r <= m.r { CountMonotone(c, ValidRound, m1.r, m.r); }
    }
  }

  // ---------------------------------------------------------------- K=128 task-local L0 events

  ghost predicate Reachable(c: Config, s: State) {
    exists schedule :: Play(c, schedule) == Reached(s)
  }

  // Nothing at or beyond the bound has been executed.
  ghost predicate StopsAt(c: Config, pc: Pipe -> Pos, bound: nat) {
    forall p, r: nat, k: nat | k < Len(c, p) && Key(c, p, Pos(r, k)) >= bound :: !Past(pc(p), r, k)
  }

  lemma PlayExtends(c: Config, schedule: seq<Pipe>, p: Pipe)
    requires Play(c, schedule).Reached? && Enabled(c, Play(c, schedule).s, p)
    ensures Play(c, schedule + [p]) == Reached(Exec(c, Play(c, schedule).s, p))
  {
    var longer := schedule + [p];
    assert longer[..|longer| - 1] == schedule;
  }

  lemma PastNext(c: Config, p: Pipe, at: Pos, r: nat, k: nat)
    requires at.k < Len(c, p) && k < Len(c, p)
    ensures Past(Next(c, p, at), r, k) ==> Past(at, r, k) || at == Pos(r, k)
  {}

  lemma StepStops(c: Config, s: State, p: Pipe, bound: nat)
    requires InRange(c, s) && StopsAt(c, s.pc, bound) && Key(c, p, s.pc(p)) < bound
    ensures StopsAt(c, Exec(c, s, p).pc, bound)
  {
    var t := Exec(c, s, p);
    forall q, r: nat, k: nat | k < Len(c, q) && Key(c, q, Pos(r, k)) >= bound
      ensures !Past(t.pc(q), r, k)
    {
      if q == p { PastNext(c, p, s.pc(p), r, k); }
    }
  }

  // The pipe furthest behind takes its next step below the bound.
  lemma StepBelow(c: Config, schedule: seq<Pipe>, p: Pipe, bound: nat)
    requires c.WellFormed() && Play(c, schedule).Reached? && bound <= 100 * c.Rounds()
    requires FlagsInv(c, Play(c, schedule).s) && StopsAt(c, Play(c, schedule).s.pc, bound)
    requires Frontier(c, Play(c, schedule).s.pc, p) && Key(c, p, Play(c, schedule).s.pc(p)) < bound
    ensures Play(c, schedule + [p]).Reached? && StopsAt(c, Play(c, schedule + [p]).s.pc, bound)
    ensures |schedule| < RunLength(c)
  {
    FrontierEnabled(c, Play(c, schedule).s, p);
    PlayExtends(c, schedule, p);
    StepStops(c, Play(c, schedule).s, p, bound);
    EveryRunCompletes(c, schedule + [p]);
  }

  // Execute, in sequential order, exactly the instructions below the bound.
  lemma {:induction false} RunBelow(c: Config, schedule: seq<Pipe>, bound: nat)
    returns (longer: seq<Pipe>)
    requires c.WellFormed() && Play(c, schedule).Reached? && bound <= 100 * c.Rounds()
    requires StopsAt(c, Play(c, schedule).s.pc, bound)
    ensures Play(c, longer).Reached?
    ensures StopsAt(c, Play(c, longer).s.pc, bound)
    ensures forall p :: Key(c, p, Play(c, longer).s.pc(p)) >= bound
    decreases RunLength(c) - |schedule|
  {
    var s := Play(c, schedule).s;
    PlayKeepsFlags(c, schedule);
    var p := Furthest(c, s.pc, AllPipes());
    forall q ensures Key(c, p, s.pc(p)) <= Key(c, q, s.pc(q)) { AllPipesListed(q); }
    if Key(c, p, s.pc(p)) >= bound {
      longer := schedule;
    } else {
      StepBelow(c, schedule, p, bound);
      longer := RunBelow(c, schedule + [p], bound);
    }
  }

  lemma OneRoundBinary(c: Config, s: State, f: Flag)
    requires FlagsInv(c, s) && c.Rounds() <= 1 && (f.L0A? || f.L0B?)
    ensures s.flags(f) <= 1
  {
    assert Holds(c, s, f) && Holds(c, s, Mte1M);
  }

  lemma ScalarStop(c: Config, at: Pos)
    requires !c.variant.K256? && at.k < 3 && Key(c, CubeS, at) >= 25 && !Past(at, 0, 1)
    ensures at == Pos(0, 1)
  {}

  lemma LoadStop(c: Config, at: Pos)
    requires !c.variant.K256? && at.k < 12 && Key(c, CubeMte1, at) >= 25 && !Past(at, 0, 11)
    ensures at == Pos(0, 11)
  {}

  lemma MmadStop(c: Config, at: Pos)
    requires !c.variant.K256? && at.k < 9 && Key(c, CubeM, at) >= 25 && !Past(at, 1, 0)
    ensures at == Pos(1, 0)
  {}

  // Everything of round 0 ranked before the cube's cross-core wait has run, nothing else.
  lemma FirstRoundComputed(c: Config) returns (schedule: seq<Pipe>)
    requires c.WellFormed() && !c.variant.K256? && c.Rounds() >= 2
    ensures Play(c, schedule).Reached?
    ensures Play(c, schedule).s.pc(CubeS) == Pos(0, 1)
    ensures Play(c, schedule).s.pc(CubeMte1) == Pos(0, 11)
    ensures Play(c, schedule).s.pc(CubeM) == Pos(1, 0)
  {
    schedule := RunBelow(c, [], 25);
    var pc := Play(c, schedule).s.pc;
    PlayKeepsFlags(c, schedule);
    assert InRange(c, Play(c, schedule).s);
    assert Key(c, CubeS, Pos(0, 1)) == 25;
    ScalarStop(c, pc(CubeS));
    assert Key(c, CubeMte1, Pos(0, 11)) == 27;
    LoadStop(c, pc(CubeMte1));
    assert Key(c, CubeM, Pos(1, 0)) == 104;
    MmadStop(c, pc(CubeM));
  }

  lemma ScalarRunsOn(c: Config, schedule: seq<Pipe>) returns (longer: seq<Pipe>)
    requires c.WellFormed() && c.Rounds() >= 2 && Play(c, schedule).Reached?
    requires Play(c, schedule).s.pc(CubeS) == Pos(0, 1)
    ensures Play(c, longer).Reached?
    ensures Play(c, longer).s.pc(CubeS) == Pos(1, 1)
    ensures forall p :: p != CubeS ==> Play(c, longer).s.pc(p) == Play(c, schedule).s.pc(p)
  {
    PlayExtends(c, schedule, CubeS);
    PlayExtends(c, schedule + [CubeS], CubeS);
    PlayExtends(c, schedule + [CubeS] + [CubeS], CubeS);
    longer := schedule + [CubeS] + [CubeS] + [CubeS];
  }

  // M opens round 1's events before MTE1 has drained round 0's.
  lemma SecondPost(c: Config, s: State)
    requires FlagsInv(c, s) && !c.variant.K256? && c.Rounds() >= 2 && s.pc(CubeS) == Pos(1, 1)
    requires s.pc(CubeMte1) == Pos(0, 11) && s.pc(CubeM) == Pos(1, 0)
    ensures Enabled(c, s, CubeM) && Exec(c, s, CubeM).flags(L0A(0)) == 2
  {
    assert Holds(c, s, Go(CubeM)) && Holds(c, s, L0A(0));
    CountEvery(c, 1);
  }

  lemma PostedTwice(c: Config) returns (s: State)
    requires c.WellFormed() && !c.variant.K256? && c.Rounds() >= 2
    ensures Reachable(c, s) && s.flags(L0A(0)) == 2
  {
    var first := FirstRoundComputed(c);
    var second := ScalarRunsOn(c, first);
    PlayKeepsFlags(c, second);
    SecondPost(c, Play(c, second).s);
    PlayExtends(c, second, CubeM);
    s := Exec(c, Play(c, second).s, CubeM);
    assert Play(c, second + [CubeM]) == Reached(s);
  }

  /** The K=128 L0 events are binary in every interleaving exactly when the group has at most one
      round; with two or more rounds some interleaving posts one of them twice without a wait. */
  lemma L0EventsBinaryIff(c: Config)
    requires c.WellFormed() && !c.variant.K256?
    ensures (forall s, f: Flag | Reachable(c, s) && (f.L0A? || f.L0B?) :: s.flags(f) <= 1)
       <==> c.Rounds() <= 1
  {
    if c.Rounds() <= 1 {
      forall s, f: Flag | Reachable(c, s) && (f.L0A? || f.L0B?)
        ensures s.flags(f) <= 1
      {
        var schedule :| Play(c, schedule) == Reached(s);
        PlayKeepsFlags(c, schedule);
        OneRoundBinary(c, s, f);
      }
    } else {
      var s := PostedTwice(c);
      var f := L0A(0);
      assert Reachable(c, s) && f.L0A? && s.flags(f) == 2;
    }
  }

  // ---------------------------------------------------------------- the shared MTE1_M event

  // M's next position when it is about to wait for the round's first part, and MTE1's when it has
  // posted that part.
  function WaitingM(c: Config): nat { if c.variant.K256? then 1 else 2 }
  function FirstPosted(c: Config): nat { if c.variant.K256? then 4 else 5 }
  function LastPosted(c: Config): nat { if c.variant.K256? then 13 else 11 }

  // Everything before M's wait for round r's first part.
  function FirstPartBound(c: Config, r: nat): nat { 100 * r + if c.variant.K256? then 9 else 11 }

  lemma MStop(c: Config, at: Pos, r: nat)
    requires at.k < Len(c, CubeM) && Key(c, CubeM, at) >= FirstPartBound(c, r)
    requires !Past(at, r, WaitingM(c))
    ensures at == Pos(r, WaitingM(c))
  {}

  lemma Mte1Stop(c: Config, at: Pos, r: nat)
    requires at.k < Len(c, CubeMte1) && Key(c, CubeMte1, at) >= FirstPartBound(c, r)
    requires !Past(at, r, FirstPosted(c))
    ensures at == Pos(r, FirstPosted(c))
  {}

  lemma StopsAtFirstPart(c: Config, pc: Pipe -> Pos, r: nat)
    requires StopsAt(c, pc, FirstPartBound(c, r)) && forall p :: Key(c, p, pc(p)) >= FirstPartBound(c, r)
    requires pc(CubeM).k < Len(c, CubeM) && pc(CubeMte1).k < Len(c, CubeMte1)
    ensures pc(CubeM) == Pos(r, WaitingM(c)) && pc(CubeMte1) == Pos(r, FirstPosted(c))
  {
    assert Key(c, CubeM, Pos(r, WaitingM(c))) == FirstPartBound(c, r);
    MStop(c, pc(CubeM), r);
    assert Key(c, CubeMte1, Pos(r, FirstPosted(c))) >= FirstPartBound(c, r);
    Mte1Stop(c, pc(CubeMte1), r);
  }

  // Round r's first part is posted and M has consumed none of the round's parts.
  lemma FirstPartPosted(c: Config, r: nat) returns (schedule: seq<Pipe>)
    requires c.WellFormed() && r < c.Rounds()
    ensures Play(c, schedule).Reached?
    ensures Play(c, schedule).s.pc(CubeM) == Pos(r, WaitingM(c))
    ensures Play(c, schedule).s.pc(CubeMte1) == Pos(r, FirstPosted(c))
  {
    assert StopsAt(c, Init(c).pc, FirstPartBound(c, r));
    schedule := RunBelow(c, [], FirstPartBound(c, r));
    PlayKeepsFlags(c, schedule);
    assert InRange(c, Play(c, schedule).s);
    StopsAtFirstPart(c, Play(c, schedule).s.pc, r);
  }

  // Until it has posted the round's last part, MTE1 finds its L0 stages free.
  lemma LoadEnabled(c: Config, s: State, r: nat)
    requires FlagsInv(c, s) && r < c.Rounds() && c.Valid(r) && s.pc(CubeM) == Pos(r, WaitingM(c))
    requires s.pc(CubeMte1).r == r && FirstPosted(c) <= s.pc(CubeMte1).k < LastPosted(c)
    ensures Enabled(c, s, CubeMte1)
  {
    if !c.variant.K256? {
      assert Holds(c, s, L0A(1)) && Holds(c, s, L0B(1));
      CountEvery(c, r);
    }
  }

  lemma {:induction false} LoadsRunOn(c: Config, schedule: seq<Pipe>, r: nat) returns (longer: seq<Pipe>)
    requires c.WellFormed() && Play(c, schedule).Reached? && r < c.Rounds() && c.Valid(r)
    requires Play(c, schedule).s.pc(CubeM) == Pos(r, WaitingM(c))
    requires Play(c, schedule).s.pc(CubeMte1).r == r
    requires FirstPosted(c) <= Play(c, schedule).s.pc(CubeMte1).k <= LastPosted(c)
    ensures Play(c, longer).Reached?
    ensures Play(c, longer).s.pc(CubeM) == Pos(r, WaitingM(c))
    ensures Play(c, longer).s.pc(CubeMte1) == Pos(r, LastPosted(c))
    decreases LastPosted(c) - Play(c, schedule).s.pc(CubeMte1).k
  {
    if Play(c, schedule).s.pc(CubeMte1).k == LastPosted(c) {
      longer := schedule;
    } else {
      PlayKeepsFlags(c, schedule);
      LoadEnabled(c, Play(c, schedule).s, r);
      PlayExtends(c, schedule, CubeMte1);
      longer := LoadsRunOn(c, schedule + [CubeMte1], r);
    }
  }

  lemma AllPartsCounted(c: Config, s: State, r: nat)
    requires FlagsInv(c, s) && c.Valid(r)
    requires s.pc(CubeM) == Pos(r, WaitingM(c)) && s.pc(CubeMte1) == Pos(r, LastPosted(c))
    ensures s.flags(Mte1M) == c.Parts()
  {
    assert Holds(c, s, Mte1M);
  }

  /** The bound is reached in every valid round: some interleaving posts all of its parts before M waits
      for the first. */
  lemma AllPartsPosted(c: Config, r: nat) returns (s: State)
    requires c.WellFormed() && c.Valid(r)
    ensures Reachable(c, s) && s.flags(Mte1M) == c.Parts()
  {
    var first := FirstPartPosted(c, r);
    var all := LoadsRunOn(c, first, r);
    PlayKeepsFlags(c, all);
    s := Play(c, all).s;
    AllPartsCounted(c, s, r);
    assert Play(c, all) == Reached(s);
  }

  lemma {:induction false} NoValidRound(c: Config, r: nat)
    requires forall q: nat :: !c.Valid(q)
    ensures Count(c, ValidRound, r) == 0
  {
    if r > 0 { NoValidRound(c, r - 1); }
  }

  lemma NothingPosted(c: Config, s: State)
    requires FlagsInv(c, s) && forall r: nat :: !c.Valid(r)
    ensures s.flags(Mte1M) == 0
  {
    assert Holds(c, s, Mte1M);
    NoValidRound(c, s.pc(CubeM).r);
    NoValidRound(c, s.pc(CubeMte1).r);
  }

  /** MTE1_M is never posted twice without a wait, in every interleaving, exactly when the group has no
      valid chunk at all: with one, all variants post it once per K part ahead of M. */
  lemma Mte1MBinaryIff(c: Config)
    requires c.WellFormed()
    ensures (forall s | Reachable(c, s) :: s.flags(Mte1M) <= 1) <==> (forall r: nat :: !c.Valid(r))
  {
    if r: nat :| c.Valid(r) {
      var s := AllPartsPosted(c, r);
    } else {
      forall s | Reachable(c, s)
        ensures s.flags(Mte1M) <= 1
      {
        var schedule :| Play(c, schedule) == Reached(s);
        PlayKeepsFlags(c, schedule);
        NothingPosted(c, s);
      }
    }
  }
}
