/** Every flag of a running MIX group equals its opening value plus the sets minus the waits its two
    pipes have executed, and never goes negative.  All later safety facts are read off this. */
module GroupFlags {
  import opened GroupProgram

  // Rounds in which a synchronisation site is active.
  datatype Kind =
    | Every
    | ValidRound
    | ValidStage(stage: nat)
    | OfSlot(slot: nat)
    | ValidSlot(slot: nat)
    | HasSuccessor              // two rounds later still exists
    | FreeSet(slot: nat)
    | FreeWait(slot: nat)
    | WorkOf(lane: Lane)

  predicate Sel(c: Config, kind: Kind, r: nat) {
    r < c.Rounds() &&
    match kind
    case Every => true
    case ValidRound => c.Valid(r)
    case ValidStage(st) => c.Valid(r) && c.Stage(r) == st
    case OfSlot(s) => r % 2 == s
    case ValidSlot(s) => c.Valid(r) && r % 2 == s
    case HasSuccessor => r + 2 < c.Rounds()
    case FreeSet(s) => r % 2 == s && r + 2 < c.Rounds()
    case FreeWait(s) => r % 2 == s && r >= 2
    case WorkOf(l) => c.Work(l, r)
  }

  // Number of active rounds below r.
  function Count(c: Config, kind: Kind, r: nat): nat {
    if r == 0 then 0 else Count(c, kind, r - 1) + (if Sel(c, kind, r - 1) then 1 else 0)
  }

  // How often a pipe at `at` has executed the site at position k of its active rounds.
  function Done(c: Config, at: Pos, kind: Kind, k: nat): nat {
    Count(c, kind, at.r) + (if at.k > k && Sel(c, kind, at.r) then 1 else 0)
  }

  /** A place in one pipe's instruction stream that sets or waits for a given flag. */
  datatype Site = Site(p: Pipe, kind: Kind, k: nat)

  datatype Sites =
    | Nowhere
    | At(s: Site)
    | At2(s: Site, t: Site)
    | At4(s: Site, t: Site, u: Site, v: Site)

  function SetSites(c: Config, f: Flag): Sites {
    var k256 := c.variant.K256?;
    match f
    case Go(p) =>
      if p == CubeMte2 then At(Site(CubeS, if c.variant.K128PingPong? then HasSuccessor else Every, 0))
      else if p == CubeMte1 || p == CubeM || p == CubeFix then At(Site(CubeS, Every, 0))
      else if p.LaneMte2? || p.LaneV? then At(Site(LaneS(p.l), Every, 1))
      else Nowhere
    case GoLate(p) =>
      if p == CubeFix || (p == CubeMte1 && !k256) then At(Site(CubeS, Every, 2)) else Nowhere
    case L1Writable(st) => At(Site(CubeMte1, ValidStage(st), if k256 then 13 else 9))
    case L1Readable(st) => At(Site(CubeMte2, ValidStage(st), 2))
    case L0A(part) =>
      if k256 || part > 1 then Nowhere
      else At2(Site(CubeM, Every, 0), Site(CubeM, ValidRound, if part == 0 then 4 else 7))
    case L0B(part) =>
      if k256 || part > 1 then Nowhere
      else At2(Site(CubeM, Every, 0), Site(CubeM, ValidRound, if part == 0 then 4 else 7))
    case Mte1M =>
      if k256 then At4(Site(CubeMte1, ValidRound, 3), Site(CubeMte1, ValidRound, 6),
                       Site(CubeMte1, ValidRound, 9), Site(CubeMte1, ValidRound, 12))
      else At2(Site(CubeMte1, ValidRound, 4), Site(CubeMte1, ValidRound, 10))
    case L0Drain => if k256 then At(Site(CubeM, ValidRound, 9)) else Nowhere
    case FixM => At(Site(CubeFix, ValidRound, 4))
    case MFix => At(Site(CubeM, ValidRound, if k256 then 10 else 8))
    case Ready(slot, _) => At(Site(CubeFix, OfSlot(slot), 3))
    case Free(slot, l) => At(Site(LaneMte2(l), FreeSet(slot), 3))
    case VMte2(l) => At(Site(LaneV(l), WorkOf(l), 2))
    case Mte2V(l) => At(Site(LaneMte2(l), WorkOf(l), 2))
  }

  function WaitSites(c: Config, f: Flag): Sites {
    var k256 := c.variant.K256?;
    match f
    case Go(p) => if p == CubeS || p.LaneS? then Nowhere else At(Site(p, Every, 0))
    case GoLate(p) =>
      if p == CubeFix then At(Site(p, Every, 1))
      else if p == CubeMte1 && !k256 then At(Site(p, Every, 11))
      else Nowhere
    case L1Writable(st) => At(Site(CubeMte2, ValidStage(st), 0))
    case L1Readable(st) => At(Site(CubeMte1, ValidStage(st), 0))
    case L0A(part) =>
      if k256 || part > 1 then Nowhere
      else At2(Site(CubeMte1, ValidRound, if part == 0 then 0 else 5), Site(CubeMte1, Every, 11))
    case L0B(part) =>
      if k256 || part > 1 then Nowhere
      else At2(Site(CubeMte1, ValidRound, if part == 0 then 2 else 7), Site(CubeMte1, Every, 11))
    case Mte1M =>
      if k256 then At4(Site(CubeM, ValidRound, 1), Site(CubeM, ValidRound, 3),
                       Site(CubeM, ValidRound, 5), Site(CubeM, ValidRound, 7))
      else At2(Site(CubeM, ValidRound, 2), Site(CubeM, ValidRound, 5))
    case L0Drain => if k256 then At(Site(CubeMte1, ValidRound, 14)) else Nowhere
    case FixM => At(Site(CubeM, ValidRound, if k256 then 0 else 1))
    case MFix => At(Site(CubeFix, ValidRound, 0))
    case Ready(slot, l) => At(Site(LaneS(l), OfSlot(slot), 0))
    case Free(slot, _) => At(Site(CubeS, FreeWait(slot), 1))
    case VMte2(l) => At(Site(LaneMte2(l), WorkOf(l), 0))
    case Mte2V(l) => At(Site(LaneV(l), WorkOf(l), 3))
  }

  ghost function DoneAt(c: Config, pc: Pipe -> Pos, s: Site): nat { Done(c, pc(s.p), s.kind, s.k) }

  ghost function Executed(c: Config, pc: Pipe -> Pos, sites: Sites): nat {
    match sites
    case Nowhere => 0
    case At(s) => DoneAt(c, pc, s)
    case At2(s, t) => DoneAt(c, pc, s) + DoneAt(c, pc, t)
    case At4(s, t, u, v) => DoneAt(c, pc, s) + DoneAt(c, pc, t) + DoneAt(c, pc, u) + DoneAt(c, pc, v)
  }

  function Hit(c: Config, p: Pipe, r: nat, k: nat, s: Site): nat {
    if s.p == p && s.k == k && Sel(c, s.kind, r) then 1 else 0
  }

  function Hits(c: Config, p: Pipe, r: nat, k: nat, sites: Sites): nat {
    match sites
    case Nowhere => 0
    case At(s) => Hit(c, p, r, k, s)
    case At2(s, t) => Hit(c, p, r, k, s) + Hit(c, p, r, k, t)
    case At4(s, t, u, v) =>
      Hit(c, p, r, k, s) + Hit(c, p, r, k, t) + Hit(c, p, r, k, u) + Hit(c, p, r, k, v)
  }

  ghost function Tokens(c: Config, pc: Pipe -> Pos, f: Flag): int {
    InitFlag(c, f) + Executed(c, pc, SetSites(c, f)) - Executed(c, pc, WaitSites(c, f))
  }

  ghost predicate InRange(c: Config, s: State) {
    forall p :: s.pc(p).r <= c.Rounds() && s.pc(p).k < Len(c, p)
                && (s.pc(p).r == c.Rounds() ==> s.pc(p).k == 0)
  }

  ghost predicate FlagsInv(c: Config, s: State) {
    && InRange(c, s)
    && forall f :: s.flags(f) == Tokens(c, s.pc, f) && s.flags(f) >= 0
  }

  lemma InitKeepsFlags(c: Config)
    ensures FlagsInv(c, Init(c))
  {}

  lemma DoneNext(c: Config, p: Pipe, at: Pos, kind: Kind, k: nat)
    requires at.r < c.Rounds() && at.k < Len(c, p) && k < Len(c, p)
    ensures Done(c, Next(c, p, at), kind, k)
         == Done(c, at, kind, k) + (if at.k == k && Sel(c, kind, at.r) then 1 else 0)
  {}

  // The site tables list exactly the flags of every instruction.
  ghost predicate Listed(c: Config, p: Pipe, r: nat, k: nat, f: Flag) {
    && Hits(c, p, r, k, SetSites(c, f)) == (if f in Fetch(c, p, r, k).sets then 1 else 0)
    && Hits(c, p, r, k, WaitSites(c, f)) == (if f in Fetch(c, p, r, k).waits then 1 else 0)
  }

  lemma CubeSListed(c: Config, r: nat, k: nat, f: Flag)
    requires c.WellFormed() && r < c.Rounds() && k < Len(c, CubeS)
    ensures Listed(c, CubeS, r, k, f)
  {
    assert f.Free? ==> f.lane.Lane0? || f.lane.Lane1?;
  }

  lemma CubeMte2Listed(c: Config, r: nat, k: nat, f: Flag)
    requires c.WellFormed() && r < c.Rounds() && k < Len(c, CubeMte2)
    ensures Listed(c, CubeMte2, r, k, f)
  {}

  lemma CubeMte1Listed(c: Config, r: nat, k: nat, f: Flag)
    requires c.WellFormed() && r < c.Rounds() && k < Len(c, CubeMte1)
    ensures Listed(c, CubeMte1, r, k, f)
  {}

  lemma CubeMListed(c: Config, r: nat, k: nat, f: Flag)
    requires c.WellFormed() && r < c.Rounds() && k < Len(c, CubeM)
    ensures Listed(c, CubeM, r, k, f)
  {}

  lemma CubeFixListed(c: Config, r: nat, k: nat, f: Flag)
    requires c.WellFormed() && r < c.Rounds() && k < Len(c, CubeFix)
    ensures Listed(c, CubeFix, r, k, f)
  {
    assert f.Ready? ==> f.lane.Lane0? || f.lane.Lane1?;
  }

  lemma LaneListed(c: Config, p: Pipe, r: nat, k: nat, f: Flag)
    requires c.WellFormed() && r < c.Rounds() && k < Len(c, p)
    requires p.LaneS? || p.LaneMte2? || p.LaneV?
    ensures Listed(c, p, r, k, f)
  {}

  lemma EveryInstrListed(c: Config, p: Pipe, r: nat, k: nat, f: Flag)
    requires c.WellFormed() && r < c.Rounds() && k < Len(c, p)
    ensures Listed(c, p, r, k, f)
  {
    match p
    case CubeS => CubeSListed(c, r, k, f);
    case CubeMte2 => CubeMte2Listed(c, r, k, f);
    case CubeMte1 => CubeMte1Listed(c, r, k, f);
    case CubeM => CubeMListed(c, r, k, f);
    case CubeFix => CubeFixListed(c, r, k, f);
    case _ => LaneListed(c, p, r, k, f);
  }

  ghost predicate Fits(c: Config, sites: Sites) {
    match sites
    case Nowhere => true
    case At(s) => s.k < Len(c, s.p)
    case At2(s, t) => s.k < Len(c, s.p) && t.k < Len(c, t.p)
    case At4(s, t, u, v) =>
      s.k < Len(c, s.p) && t.k < Len(c, t.p) && u.k < Len(c, u.p) && v.k < Len(c, v.p)
  }

  lemma SiteStep(c: Config, pc: Pipe -> Pos, pc': Pipe -> Pos, p: Pipe, s: Site)
    requires pc(p).r < c.Rounds() && pc(p).k < Len(c, p) && s.k < Len(c, s.p)
    requires pc'(p) == Next(c, p, pc(p)) && forall q :: q != p ==> pc'(q) == pc(q)
    ensures DoneAt(c, pc', s) == DoneAt(c, pc, s) + Hit(c, p, pc(p).r, pc(p).k, s)
  {
    if s.p == p { DoneNext(c, p, pc(p), s.kind, s.k); }
  }

  lemma SitesStep(c: Config, pc: Pipe -> Pos, pc': Pipe -> Pos, p: Pipe, sites: Sites)
    requires pc(p).r < c.Rounds() && pc(p).k < Len(c, p) && Fits(c, sites)
    requires pc'(p) == Next(c, p, pc(p)) && forall q :: q != p ==> pc'(q) == pc(q)
    ensures Executed(c, pc', sites) == Executed(c, pc, sites) + Hits(c, p, pc(p).r, pc(p).k, sites)
  {
    match sites
    case Nowhere =>
    case At(s) => SiteStep(c, pc, pc', p, s);
    case At2(s, t) => SiteStep(c, pc, pc', p, s); SiteStep(c, pc, pc', p, t);
    case At4(s, t, u, v) =>
      SiteStep(c, pc, pc', p, s); SiteStep(c, pc, pc', p, t);
      SiteStep(c, pc, pc', p, u); SiteStep(c, pc, pc', p, v);
  }

  lemma SitesFit(c: Config, f: Flag)
    ensures Fits(c, SetSites(c, f)) && Fits(c, WaitSites(c, f))
  {}

  lemma StepKeepsFlags(c: Config, s: State, p: Pipe)
    requires c.WellFormed() && FlagsInv(c, s) && Enabled(c, s, p)
    ensures FlagsInv(c, Exec(c, s, p))
  {
    var t := Exec(c, s, p);
    forall f
      ensures t.flags(f) == Tokens(c, t.pc, f) && t.flags(f) >= 0
    {
      SitesFit(c, f);
      SitesStep(c, s.pc, t.pc, p, SetSites(c, f));
      SitesStep(c, s.pc, t.pc, p, WaitSites(c, f));
      EveryInstrListed(c, p, s.pc(p).r, s.pc(p).k, f);
    }
  }
}
