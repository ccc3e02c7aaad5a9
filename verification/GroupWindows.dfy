/** How far the pipes of a group can drift apart, read off the flag counts: who owns a buffer, how
    many posts a flag can hold, and when a workspace slot may be overwritten. */
module GroupWindows {
  import opened GroupProgram
  import opened GroupFlags
  import opened GroupProgress

  ghost predicate Holds(c: Config, s: State, f: Flag) {
    s.flags(f) == Tokens(c, s.pc, f) && s.flags(f) >= 0
  }

  // Counting against a fixed round r.
  lemma DoneAgainst(c: Config, at: Pos, kind: Kind, k: nat, r: nat)
    ensures at.r < r ==> Done(c, at, kind, k) <= Count(c, kind, r)
    ensures at.r <= r ==> Done(c, at, kind, k) <= Count(c, kind, r + 1)
    ensures at.r > r ==> Done(c, at, kind, k) >= Count(c, kind, r + 1)
    ensures at.r >= r ==> Done(c, at, kind, k) >= Count(c, kind, r)
  {
    if at.r < r { CountMonotone(c, kind, at.r + 1, r); }
    else if at.r > r { CountMonotone(c, kind, r + 1, at.r); }
  }

  function B(b: bool): int { if b then 1 else 0 }

  // ---------------------------------------------------------------- ownership

  // The stage a round's tile goes through: one in the released kernels, two alternating ones in v03.
  predicate UsesStage(c: Config, r: nat, st: nat) {
    c.Valid(r) && st == if c.variant.K128PingPong? then r % 2 else 0
  }

  // MTE2 is filling the stage, or MTE1 is still reading it.
  predicate Mte2Owns(c: Config, at: Pos, st: nat) { UsesStage(c, at.r, st) && 1 <= at.k <= 2 }

  predicate Mte1Owns(c: Config, at: Pos, st: nat) {
    UsesStage(c, at.r, st) && 1 <= at.k <= (if c.variant.K256? then 13 else 9)
  }

  /** Exactly one of four holds a packed L1 stage: its writable token, its readable token, the
      filling MTE2 or the reading MTE1. */
  lemma L1Ownership(c: Config, s: State, st: nat)
    requires FlagsInv(c, s)
    ensures s.flags(L1Writable(st)) + s.flags(L1Readable(st))
          + B(Mte2Owns(c, s.pc(CubeMte2), st)) + B(Mte1Owns(c, s.pc(CubeMte1), st))
         == InitFlag(c, L1Writable(st))
  {
    assert Holds(c, s, L1Writable(st)) && Holds(c, s, L1Readable(st));
  }

  predicate MOwns(c: Config, at: Pos) {
    c.Valid(at.r) && (if c.variant.K256? then 1 <= at.k <= 10 else 2 <= at.k <= 8)
  }

  predicate FixOwns(c: Config, at: Pos) { c.Valid(at.r) && 1 <= at.k <= 4 }

  /** The accumulator belongs to the multiplying M pipe, to the committing FIX pipe, or to exactly
      one of the two tokens between them: no MMAD runs while a commit of L0C is in flight. */
  lemma AccumulatorOwnership(c: Config, s: State)
    requires FlagsInv(c, s)
    ensures s.flags(FixM) + s.flags(MFix)
          + B(MOwns(c, s.pc(CubeM))) + B(FixOwns(c, s.pc(CubeFix))) == 1
  {
    assert Holds(c, s, FixM) && Holds(c, s, MFix);
  }

  /** While MTE2 writes a lane's KKT tile, PIPE_V has finished clearing it and waits for the copy. */
  lemma TileOwnership(c: Config, s: State, l: Lane)
    requires FlagsInv(c, s)
    ensures s.flags(VMte2(l)) + s.flags(Mte2V(l))
          + B(c.Work(l, s.pc(LaneMte2(l)).r) && s.pc(LaneMte2(l)).r < c.Rounds()
              && 1 <= s.pc(LaneMte2(l)).k <= 2)
         == B(c.Work(l, s.pc(LaneV(l)).r) && s.pc(LaneV(l)).r < c.Rounds() && s.pc(LaneV(l)).k == 3)
  {
    assert Holds(c, s, VMte2(l)) && Holds(c, s, Mte2V(l));
  }

  // ---------------------------------------------------------------- workspace slots

  predicate Past(at: Pos, r: nat, k: nat) { at.r > r || (at.r == r && at.k > k) }

  lemma IssueOrder(c: Config, s: State, l: Lane)
    requires FlagsInv(c, s)
    ensures s.pc(LaneS(l)).r >= s.pc(LaneMte2(l)).r + B(s.pc(LaneMte2(l)).k > 0)
    ensures s.pc(CubeS).r >= s.pc(CubeFix).r + B(s.pc(CubeFix).k > 1)
  {
    assert Holds(c, s, Go(LaneMte2(l))) && Holds(c, s, GoLate(CubeFix));
    CountEvery(c, s.pc(LaneS(l)).r);
    CountEvery(c, s.pc(LaneMte2(l)).r);
    CountEvery(c, s.pc(CubeS).r);
    CountEvery(c, s.pc(CubeFix).r);
  }

  // The cube's wait in round r lets it pass only after both lanes released round r - 2.
  lemma FreeMeans(c: Config, s: State, l: Lane, r: nat)
    requires FlagsInv(c, s) && 2 <= r < c.Rounds() && Past(s.pc(CubeS), r, 1)
    ensures s.pc(LaneMte2(l)).r >= r - 1
  {
    var slot := r % 2;
    var lane := s.pc(LaneMte2(l));
    assert Holds(c, s, Free(slot, l));
    if lane.r <= r - 2 {
      FreeShift(c, slot, r - 2);
      CountMonotone(c, FreeSet(slot), lane.r, r - 2);
      DoneAgainst(c, s.pc(CubeS), FreeWait(slot), 1, r);
    }
  }

  // A lane's wait in round r lets it pass only after the cube's READY of round r.
  lemma ReadyMeans(c: Config, s: State, l: Lane, r: nat)
    requires FlagsInv(c, s) && r < c.Rounds() && Past(s.pc(LaneS(l)), r, 0)
    ensures Past(s.pc(CubeFix), r, 3)
  {
    var slot := r % 2;
    assert Holds(c, s, Ready(slot, l));
    DoneAgainst(c, s.pc(LaneS(l)), OfSlot(slot), 0, r);
    DoneAgainst(c, s.pc(CubeFix), OfSlot(slot), 3, r);
  }

  // The commit pipe is at most two rounds ahead of either lane's copy pipe.
  lemma CommitLead(c: Config, s: State, l: Lane)
    requires FlagsInv(c, s)
    ensures s.pc(CubeFix).r <= s.pc(LaneMte2(l)).r + 2
    ensures s.pc(CubeFix).r == s.pc(LaneMte2(l)).r + 2 ==> s.pc(CubeFix).k <= 1
  {
    var f := s.pc(CubeFix);
    IssueOrder(c, s, l);
    if f.k > 1 && f.r >= 2 { FreeMeans(c, s, l, f.r); }
    if f.r >= 3 { FreeMeans(c, s, l, f.r - 1); }
  }

  /** While a lane's copy of round r is under way its slot holds still: READY of round r has been
      posted behind the commit, and no later commit to that slot has started. */
  lemma CopyWindow(c: Config, s: State, l: Lane)
    requires FlagsInv(c, s) && s.pc(LaneMte2(l)).r < c.Rounds() && s.pc(LaneMte2(l)).k >= 1
    ensures Past(s.pc(CubeFix), s.pc(LaneMte2(l)).r, 3)
    ensures !Past(s.pc(CubeFix), s.pc(LaneMte2(l)).r + 2, 1)
  {
    IssueOrder(c, s, l);
    ReadyMeans(c, s, l, s.pc(LaneMte2(l)).r);
    CommitLead(c, s, l);
  }

  /** Before the commit of round r may start, both lanes have finished (or skipped) the copy of the
      slot's previous tile, that of round r - 2. */
  lemma CommitWaitsForBothLanes(c: Config, s: State, l: Lane)
    requires FlagsInv(c, s) && s.pc(CubeFix).r < c.Rounds() && s.pc(CubeFix).k >= 2
    requires s.pc(CubeFix).r >= 2
    ensures s.pc(LaneMte2(l)).r >= s.pc(CubeFix).r - 1
  {
    IssueOrder(c, s, l);
    FreeMeans(c, s, l, s.pc(CubeFix).r);
  }

  // ---------------------------------------------------------------- flag values

  lemma {:induction false} SlotSpread(c: Config, kind: Kind, slot: nat, r: nat)
    requires kind == OfSlot(slot) || kind == FreeSet(slot)
    ensures Count(c, kind, r + 2) <= Count(c, kind, r) + 1
  {
    assert Count(c, kind, r + 1) == Count(c, kind, r) + (if Sel(c, kind, r) then 1 else 0);
  }

  lemma ReadyAtMostOne(c: Config, s: State, slot: nat, l: Lane)
    requires FlagsInv(c, s)
    ensures 0 <= s.flags(Ready(slot, l)) <= 1
  {
    var f := s.pc(CubeFix);
    var lane := s.pc(LaneS(l));
    assert Holds(c, s, Ready(slot, l));
    IssueOrder(c, s, l);
    CommitLead(c, s, l);
    var r := if f.k > 3 then f.r + 1 else f.r;
    assert r <= lane.r + 2;
    DoneAgainst(c, lane, OfSlot(slot), 0, lane.r);
    SlotSpread(c, OfSlot(slot), slot, lane.r);
    CountMonotone(c, OfSlot(slot), r, lane.r + 2);
  }

  lemma FreeAtMostOne(c: Config, s: State, slot: nat, l: Lane)
    requires FlagsInv(c, s)
    ensures 0 <= s.flags(Free(slot, l)) <= 1
  {
    var m := s.pc(LaneMte2(l)).r;
    assert Holds(c, s, Free(slot, l));
    IssueOrder(c, s, l);
    if m >= 1 { ReadyMeans(c, s, l, m - 1); }
    assert s.pc(CubeS).r >= m;
    DoneAgainst(c, s.pc(CubeS), FreeWait(slot), 1, m);
    if m >= 2 {
      FreeShift(c, slot, m - 2);
      SlotSpread(c, FreeSet(slot), slot, m - 2);
    } else {
      CountMonotone(c, FreeSet(slot), m, 2);
      SlotSpread(c, FreeSet(slot), slot, 0);
      assert Count(c, FreeSet(slot), 0) == 0;
    }
  }
}
