/** What the buffers of a group hold.  Every pipe writes its buffer as a function of its own position
    alone; the ownership windows show that each reader finds the tile of its own round. */
module GroupData {
  import opened GroupProgram
  import opened GroupFlags
  import opened GroupProgress
  import opened GroupWindows

  // The latest active round below r, or -1.
  function Last(c: Config, kind: Kind, r: nat): int {
    if r == 0 then -1 else if Sel(c, kind, r - 1) then r - 1 else Last(c, kind, r - 1)
  }

  // The latest round in which a pipe at `at` has executed position k.
  function LastAt(c: Config, at: Pos, kind: Kind, k: nat): int {
    if at.k > k && Sel(c, kind, at.r) then at.r else Last(c, kind, at.r)
  }

  lemma {:induction false} LastSteps(c: Config, kind: Kind, r: nat, to: nat)
    requires Sel(c, kind, r) && r < to && Count(c, kind, to) == Count(c, kind, r) + 1
    ensures Last(c, kind, to) == r
  {
    if to > r + 1 {
      CountMonotone(c, kind, r + 1, to - 1);
      LastSteps(c, kind, r, to - 1);
    }
  }

  // Having executed a site once more than the rounds below r contain, its latest round is r.
  lemma LastByCount(c: Config, at: Pos, kind: Kind, k: nat, r: nat)
    requires Sel(c, kind, r) && Done(c, at, kind, k) == Count(c, kind, r) + 1
    ensures LastAt(c, at, kind, k) == r
  {
    DoneAgainst(c, at, kind, k, r);
    if at.r > r {
      CountMonotone(c, kind, r + 1, at.r);
      LastSteps(c, kind, r, at.r);
    }
  }

  lemma {:induction false} LastBelow(c: Config, kind: Kind, r: nat)
    ensures -1 <= Last(c, kind, r) < r
    ensures Last(c, kind, r) >= 0 ==> Sel(c, kind, Last(c, kind, r))
  {
    if r > 0 { LastBelow(c, kind, r - 1); }
  }

  lemma LastAtNext(c: Config, p: Pipe, at: Pos, kind: Kind, k: nat)
    requires at.r < c.Rounds() && at.k < Len(c, p) && k < Len(c, p)
    ensures LastAt(c, Next(c, p, at), kind, k)
         == if at.k == k && Sel(c, kind, at.r) then at.r else LastAt(c, at, kind, k)
  {}

  // ---------------------------------------------------------------- tiles

  // The first m K parts of round r's Gram product.
  function Partial(r: int, m: nat): seq<Product> {
    seq(m, p => Product(r, p, r, p))
  }

  // The complete Gram tile of round r; the empty tile before any round.
  function Full(c: Config, r: int): seq<Product> {
    if r < 0 then [] else Partial(r, c.Parts())
  }

  // Positions of the L0 loads and of the MMAD of one K part.
  function LoadAPos(c: Config, part: nat): nat { if c.variant.K256? then 3 * part + 1 else 5 * part + 1 }
  function LoadBPos(c: Config, part: nat): nat { if c.variant.K256? then 3 * part + 2 else 5 * part + 3 }
  function MmadPos(c: Config, part: nat): nat { if c.variant.K256? then 2 * part + 2 else 3 * part + 3 }

  function MmadsDone(c: Config, k: nat): nat {
    if c.variant.K256? then (if k > 8 then 4 else if k == 0 then 0 else (k - 1) / 2)
    else if k > 6 then 2 else if k > 3 then 1 else 0
  }

  // Contents of L0C as a function of the M pipe's position.
  function Accumulated(c: Config, at: Pos): seq<Product> {
    if c.Valid(at.r) && MmadsDone(c, at.k) > 0 then Partial(at.r, MmadsDone(c, at.k))
    else Full(c, Last(c, ValidRound, at.r))
  }

  // The KKT tiles a lane multiplies in the rounds below r.
  function Seen(c: Config, l: Lane, r: nat): seq<(nat, seq<Product>)> {
    if r == 0 then []
    else Seen(c, l, r - 1) + (if c.Work(l, r - 1) then [(r - 1, Full(c, r - 1))] else [])
  }

  ghost predicate L1Inv(c: Config, s: State) {
    forall st: nat :: s.data.l1(st) == LastAt(c, s.pc(CubeMte2), ValidStage(st), 1)
  }

  ghost predicate L0Inv(c: Config, s: State) {
    forall part: nat | part < c.Parts() ::
      && s.data.l0a(part) == (LastAt(c, s.pc(CubeMte1), ValidRound, LoadAPos(c, part)), part)
      && s.data.l0b(part) == (LastAt(c, s.pc(CubeMte1), ValidRound, LoadBPos(c, part)), part)
  }

  ghost predicate C1Inv(c: Config, s: State) {
    s.data.c1 == Accumulated(c, s.pc(CubeM))
  }

  ghost predicate GmInv(c: Config, s: State) {
    forall slot: nat :: s.data.gm(slot) == Full(c, LastAt(c, s.pc(CubeFix), ValidSlot(slot), 2))
  }

  ghost predicate UbInv(c: Config, s: State, l: Lane) {
    var x := LastAt(c, s.pc(LaneMte2(l)), WorkOf(l), 1);
    x == LastAt(c, s.pc(LaneV(l)), WorkOf(l), 1) ==> s.data.ub(l) == Full(c, x)
  }

  ghost predicate SeenInv(c: Config, s: State, l: Lane) {
    s.data.seen(l) == Seen(c, l, s.pc(LaneV(l)).r)
  }

  ghost predicate DataInv(c: Config, s: State) {
    && L1Inv(c, s) && L0Inv(c, s) && C1Inv(c, s) && GmInv(c, s)
    && forall l :: UbInv(c, s, l) && SeenInv(c, s, l)
  }

  // ---------------------------------------------------------------- what a reader finds

  // MTE1 loads from a packed stage that holds its own round: the one stage of the released kernels, stage
  // r % 2 of v03's two.
  lemma StageHoldsRound(c: Config, s: State)
    requires FlagsInv(c, s) && L1Inv(c, s) && c.Valid(s.pc(CubeMte1).r)
    requires 1 <= s.pc(CubeMte1).k <= (if c.variant.K256? then 13 else 9)
    ensures s.data.l1(if c.variant.K128PingPong? then s.pc(CubeMte1).r % 2 else 0) == s.pc(CubeMte1).r
  {
    var at := s.pc(CubeMte1);
    var st := c.Stage(at.r);
    assert Holds(c, s, L1Readable(st)) && Holds(c, s, L1Writable(st));
    LastByCount(c, s.pc(CubeMte2), ValidStage(st), 1, at.r);
  }

  lemma MmadReadsRound128(c: Config, s: State, part: nat)
    requires FlagsInv(c, s) && L0Inv(c, s) && !c.variant.K256?
    requires c.Valid(s.pc(CubeM).r) && part < 2 && s.pc(CubeM).k == MmadPos(c, part)
    ensures s.data.l0a(part) == s.data.l0b(part) == (s.pc(CubeM).r, part)
  {
    var at := s.pc(CubeM);
    var m1 := s.pc(CubeMte1);
    assert Holds(c, s, Mte1M) && Holds(c, s, L0A(part));
    CountEvery(c, at.r);
    CountEvery(c, m1.r);
    DoneAgainst(c, m1, ValidRound, if part == 0 then 0 else 5, at.r);
    DoneAgainst(c, m1, ValidRound, 4, at.r);
    DoneAgainst(c, m1, ValidRound, 10, at.r);
    assert m1.r <= at.r;
    LastByCount(c, m1, ValidRound, LoadAPos(c, part), at.r);
    LastByCount(c, m1, ValidRound, LoadBPos(c, part), at.r);
  }

  lemma MmadReadsRound256(c: Config, s: State, part: nat)
    requires FlagsInv(c, s) && L0Inv(c, s) && c.variant.K256?
    requires c.Valid(s.pc(CubeM).r) && part < 4 && s.pc(CubeM).k == MmadPos(c, part)
    ensures s.data.l0a(part) == s.data.l0b(part) == (s.pc(CubeM).r, part)
  {
    var at := s.pc(CubeM);
    var m1 := s.pc(CubeMte1);
    assert Holds(c, s, Mte1M) && Holds(c, s, L0Drain);
    DoneAgainst(c, m1, ValidRound, 14, at.r);
    assert m1.r <= at.r;
    DoneAgainst(c, m1, ValidRound, 3, at.r);
    assert m1.r == at.r;
    LastByCount(c, m1, ValidRound, LoadAPos(c, part), at.r);
    LastByCount(c, m1, ValidRound, LoadBPos(c, part), at.r);
  }

  // The commit of round r finds the finished product of round r in L0C.
  lemma CommitReadsRound(c: Config, s: State)
    requires FlagsInv(c, s) && C1Inv(c, s)
    requires c.Valid(s.pc(CubeFix).r) && s.pc(CubeFix).k == 2
    ensures s.data.c1 == Full(c, s.pc(CubeFix).r)
  {
    var r := s.pc(CubeFix).r;
    var m := s.pc(CubeM);
    var k0 := if c.variant.K256? then 0 else 1;
    assert Holds(c, s, MFix) && Holds(c, s, FixM);
    assert Done(c, m, ValidRound, k0) == Count(c, ValidRound, r) + 1;
    LastByCount(c, m, ValidRound, k0, r);
    assert !(c.Valid(m.r) && m.k > k0);
  }

  // A lane's copy finds the committed tile of its own round in the slot.
  lemma CopyReadsRound(c: Config, s: State, l: Lane)
    requires c.WellFormed() && FlagsInv(c, s) && GmInv(c, s)
    requires c.Work(l, s.pc(LaneMte2(l)).r) && s.pc(LaneMte2(l)).r < c.Rounds()
    requires s.pc(LaneMte2(l)).k >= 1
    ensures s.data.gm(s.pc(LaneMte2(l)).r % 2) == Full(c, s.pc(LaneMte2(l)).r)
  {
    var r := s.pc(LaneMte2(l)).r;
    var f := s.pc(CubeFix);
    CopyWindow(c, s, l);
    assert f.r == r || f.r == r + 1 || f.r == r + 2;
    assert Sel(c, ValidSlot(r % 2), r);
    assert Last(c, ValidSlot(r % 2), r + 1) == r;
    assert Last(c, ValidSlot(r % 2), r + 2) == r;
  }

  // PIPE_V multiplies with the tile of its own round.
  lemma MultiplyReadsRound(c: Config, s: State, l: Lane)
    requires FlagsInv(c, s) && UbInv(c, s, l)
    requires c.Work(l, s.pc(LaneV(l)).r) && s.pc(LaneV(l)).r < c.Rounds() && s.pc(LaneV(l)).k == 4
    ensures s.data.ub(l) == Full(c, s.pc(LaneV(l)).r)
  {
    var r := s.pc(LaneV(l)).r;
    assert Holds(c, s, VMte2(l)) && Holds(c, s, Mte2V(l));
    LastByCount(c, s.pc(LaneMte2(l)), WorkOf(l), 1, r);
  }

  // ---------------------------------------------------------------- preservation

  lemma InitKeepsData(c: Config)
    ensures DataInv(c, Init(c))
  {}

  lemma CubeKeepsL1(c: Config, s: State, p: Pipe)
    requires c.WellFormed() && FlagsInv(c, s) && Enabled(c, s, p) && L1Inv(c, s)
    ensures L1Inv(c, Exec(c, s, p))
  {
    if p == CubeMte2 {
      forall st: nat
        ensures Exec(c, s, p).data.l1(st) == LastAt(c, Exec(c, s, p).pc(p), ValidStage(st), 1)
      {
        LastAtNext(c, p, s.pc(p), ValidStage(st), 1);
      }
    }
  }

  // One load leaves every part slot as MTE1's new position says.
  lemma LoadKeepsPart(c: Config, s: State, part: nat)
    requires c.WellFormed() && FlagsInv(c, s) && Enabled(c, s, CubeMte1) && L1Inv(c, s) && L0Inv(c, s) && part < c.Parts()
    ensures
      var t := Exec(c, s, CubeMte1);
      && t.data.l0a(part) == (LastAt(c, t.pc(CubeMte1), ValidRound, LoadAPos(c, part)), part)
      && t.data.l0b(part) == (LastAt(c, t.pc(CubeMte1), ValidRound, LoadBPos(c, part)), part)
  {
    var at := s.pc(CubeMte1);
    if c.Valid(at.r) && 1 <= at.k <= (if c.variant.K256? then 13 else 9) { StageHoldsRound(c, s); }
    LastAtNext(c, CubeMte1, at, ValidRound, LoadAPos(c, part));
    LastAtNext(c, CubeMte1, at, ValidRound, LoadBPos(c, part));
  }

  lemma CubeKeepsL0(c: Config, s: State, p: Pipe)
    requires c.WellFormed() && FlagsInv(c, s) && Enabled(c, s, p) && L1Inv(c, s) && L0Inv(c, s)
    ensures L0Inv(c, Exec(c, s, p))
  {
    if p == CubeMte1 {
      forall part: nat | part < c.Parts()
        ensures Exec(c, s, p).data.l0a(part)
             == (LastAt(c, Exec(c, s, p).pc(p), ValidRound, LoadAPos(c, part)), part)
        ensures Exec(c, s, p).data.l0b(part)
             == (LastAt(c, Exec(c, s, p).pc(p), ValidRound, LoadBPos(c, part)), part)
      {
        LoadKeepsPart(c, s, part);
      }
    }
  }

  lemma CubeKeepsC1(c: Config, s: State, p: Pipe)
    requires c.WellFormed() && FlagsInv(c, s) && Enabled(c, s, p) && L0Inv(c, s) && C1Inv(c, s)
    ensures C1Inv(c, Exec(c, s, p))
  {
    if p == CubeM {
      var at := s.pc(p);
      var part := MmadsDone(c, at.k);
      if c.Valid(at.r) && part < c.Parts() && at.k == MmadPos(c, part) {
        if c.variant.K256? { MmadReadsRound256(c, s, part); } else { MmadReadsRound128(c, s, part); }
        assert Partial(at.r, part + 1) == Partial(at.r, part) + [Product(at.r, part, at.r, part)];
      }
    }
  }

  lemma CubeKeepsGm(c: Config, s: State, p: Pipe)
    requires c.WellFormed() && FlagsInv(c, s) && Enabled(c, s, p) && C1Inv(c, s) && GmInv(c, s)
    ensures GmInv(c, Exec(c, s, p))
  {
    if p == CubeFix {
      var at := s.pc(p);
      if c.Valid(at.r) && at.k == 2 { CommitReadsRound(c, s); }
      forall slot: nat
        ensures Exec(c, s, p).data.gm(slot)
             == Full(c, LastAt(c, Exec(c, s, p).pc(p), ValidSlot(slot), 2))
      {
        LastAtNext(c, p, at, ValidSlot(slot), 2);
      }
    }
  }

  lemma CopyKeepsUb(c: Config, s: State, l: Lane)
    requires c.WellFormed() && FlagsInv(c, s) && Enabled(c, s, LaneMte2(l)) && GmInv(c, s) && UbInv(c, s, l)
    ensures UbInv(c, Exec(c, s, LaneMte2(l)), l)
  {
    var at := s.pc(LaneMte2(l));
    LastAtNext(c, LaneMte2(l), at, WorkOf(l), 1);
    if c.Work(l, at.r) && at.k == 1 { CopyReadsRound(c, s, l); }
  }

  // A copy of PIPE_V's current round waits for the token PIPE_V posts after clearing.
  lemma NotCopiedYet(c: Config, s: State, l: Lane)
    requires FlagsInv(c, s) && Sel(c, WorkOf(l), s.pc(LaneV(l)).r) && s.pc(LaneV(l)).k == 1
    ensures LastAt(c, s.pc(LaneMte2(l)), WorkOf(l), 1) != s.pc(LaneV(l)).r
  {
    var m := s.pc(LaneMte2(l));
    assert Holds(c, s, VMte2(l));
    DoneAgainst(c, m, WorkOf(l), 0, s.pc(LaneV(l)).r);
    LastBelow(c, WorkOf(l), m.r);
  }

  lemma VectorKeepsUb(c: Config, s: State, l: Lane)
    requires c.WellFormed() && FlagsInv(c, s) && Enabled(c, s, LaneV(l)) && UbInv(c, s, l)
    ensures UbInv(c, Exec(c, s, LaneV(l)), l)
  {
    var at := s.pc(LaneV(l));
    LastAtNext(c, LaneV(l), at, WorkOf(l), 1);
    if c.Work(l, at.r) && at.k == 1 { NotCopiedYet(c, s, l); }
  }

  lemma LaneKeepsUb(c: Config, s: State, p: Pipe, l: Lane)
    requires c.WellFormed() && FlagsInv(c, s) && Enabled(c, s, p) && GmInv(c, s) && UbInv(c, s, l)
    ensures UbInv(c, Exec(c, s, p), l)
  {
    if p == LaneMte2(l) { CopyKeepsUb(c, s, l); }
    else if p == LaneV(l) { VectorKeepsUb(c, s, l); }
  }

  lemma LaneKeepsSeen(c: Config, s: State, p: Pipe, l: Lane)
    requires c.WellFormed() && FlagsInv(c, s) && Enabled(c, s, p) && UbInv(c, s, l) && SeenInv(c, s, l)
    ensures SeenInv(c, Exec(c, s, p), l)
  {
    if p == LaneV(l) && c.Work(l, s.pc(p).r) && s.pc(p).k == 4 { MultiplyReadsRound(c, s, l); }
  }

  lemma StepKeepsData(c: Config, s: State, p: Pipe)
    requires c.WellFormed() && FlagsInv(c, s) && Enabled(c, s, p) && DataInv(c, s)
    ensures DataInv(c, Exec(c, s, p))
  {
    CubeKeepsL1(c, s, p);
    CubeKeepsL0(c, s, p);
    CubeKeepsC1(c, s, p);
    CubeKeepsGm(c, s, p);
    forall l
      ensures UbInv(c, Exec(c, s, p), l) && SeenInv(c, Exec(c, s, p), l)
    {
      LaneKeepsUb(c, s, p, l);
      LaneKeepsSeen(c, s, p, l);
    }
  }

  lemma {:induction false} PlayKeepsData(c: Config, schedule: seq<Pipe>)
    requires c.WellFormed() && Play(c, schedule).Reached?
    ensures FlagsInv(c, Play(c, schedule).s) && DataInv(c, Play(c, schedule).s)
  {
    PlayKeepsFlags(c, schedule);
    if schedule == [] {
      InitKeepsData(c);
    } else {
      var before := schedule[..|schedule| - 1];
      PlayKeepsData(c, before);
      StepKeepsData(c, Play(c, before).s, schedule[|schedule| - 1]);
    }
  }
}
