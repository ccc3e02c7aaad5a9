/** The instruction streams of one MIX group: one cube core and two vector lanes.

  A core's scalar unit only issues work; every issued instruction runs in order on its own pipe.
  Pipes synchronise through counting flags: a Set increments, a Wait needs a positive count and
  decrements.  A queue is modelled by the `Go` flags: the scalar unit posts one per round and the
  pipe's first instruction of the round consumes it, so a pipe never runs ahead of its issue point
  and may lag behind it arbitrarily.

  One round is one task of the group's local task list.  An instruction the source skips for an
  invalid chunk (or for a lane without work) keeps its position but touches no flag and no data. */
module GroupProgram {

  // Which cube stage drives the group: the two released ones, or the v03 two-stage L1 ping-pong.
  datatype Variant = K128 | K256 | K128PingPong

  datatype Lane = Lane0 | Lane1

  /** One group's run: `valid[r]` says that round r's chunk passes the kernel's local checks,
      `work0[r]`/`work1[r]` that the lane has rows and heads to process in that round. */
  datatype Config = Config(variant: Variant, valid: seq<bool>, work0: seq<bool>, work1: seq<bool>) {
    ghost predicate WellFormed() {
      && |work0| == |valid| && |work1| == |valid|
      && forall r :: 0 <= r < |valid| ==> (work0[r] || work1[r] ==> valid[r])
    }

    function Rounds(): nat { |valid| }

    function Valid(r: nat): bool { r < |valid| && valid[r] }

    function Work(l: Lane, r: nat): bool {
      if l.Lane0? then r < |work0| && work0[r] else r < |work1| && work1[r]
    }

    // L1 stage used by a round: the released kernels own one packed tile, v03 alternates two.
    function Stage(r: nat): nat { if variant.K128PingPong? then r % 2 else 0 }

    function Parts(): nat { if variant.K256? then 4 else 2 }
  }

  datatype Pipe =
    | CubeS | CubeMte2 | CubeMte1 | CubeM | CubeFix
    | LaneS(l: Lane) | LaneMte2(l: Lane) | LaneV(l: Lane)

  datatype Flag =
    | Go(pipe: Pipe)             // work issued before the scalar unit's cross-core wait
    | GoLate(pipe: Pipe)         // work issued after it
    | L1Writable(stage: nat)     // MTE1 -> MTE2, persistent
    | L1Readable(stage: nat)     // MTE2 -> MTE1
    | L0A(part: nat)             // M -> MTE1, K=128 task-local ownership
    | L0B(part: nat)
    | Mte1M                      // MTE1 -> M, one event id for every K part
    | L0Drain                    // M -> MTE1, K=256 task-local drain
    | FixM                       // FIX -> M, persistent ownership of the accumulator
    | MFix                       // M -> FIX
    | Ready(slot: nat, lane: Lane)
    | Free(slot: nat, lane: Lane)
    | VMte2(lane: Lane)
    | Mte2V(lane: Lane)

  datatype Act =
    | NoAct
    | CopyL1                     // clear on tail, then GM -> L1 packed copy
    | LoadA(part: nat) | LoadB(part: nat)
    | Mmad(part: nat)
    | Commit                     // L0C -> GM workspace slot
    | ClearTile                  // PIPE_V zero-fills the UB tile ahead of a copy
    | CopyTile                   // GM workspace slot -> UB
    | MulTile                    // PIPE_V reads the UB tile

  datatype Instr = Instr(waits: set<Flag>, act: Act, sets: set<Flag>)

  function When(b: bool, fs: set<Flag>): set<Flag> { if b then fs else {} }

  function Waiting(fs: set<Flag>): Instr { Instr(fs, NoAct, {}) }
  function Setting(fs: set<Flag>): Instr { Instr({}, NoAct, fs) }
  function Doing(b: bool, a: Act): Instr { Instr({}, if b then a else NoAct, {}) }

  function CubeScalar(c: Config, r: nat, k: nat): Instr {
    if k == 0 then
      Setting({Go(CubeMte1), Go(CubeM), Go(CubeFix)} +
              When(!c.variant.K128PingPong? || r + 2 < c.Rounds(), {Go(CubeMte2)}))
    else if k == 1 then
      Waiting(When(r >= 2, {Free(r % 2, Lane0), Free(r % 2, Lane1)}))
    else
      Setting({GoLate(CubeFix)} + When(!c.variant.K256?, {GoLate(CubeMte1)}))
  }

  function CubeCopyIn(c: Config, r: nat, k: nat): Instr {
    var v := c.Valid(r);
    if k == 0 then Waiting({Go(CubeMte2)} + When(v, {L1Writable(c.Stage(r))}))
    else if k == 1 then Doing(v, CopyL1)
    else Setting(When(v, {L1Readable(c.Stage(r))}))
  }

  // K=128: one ownership token per L0 operand and part, opened and drained inside the task.
  function CubeLoad128(c: Config, r: nat, k: nat): Instr {
    var v := c.Valid(r);
    if k == 0 then Waiting({Go(CubeMte1)} + When(v, {L0A(0), L1Readable(c.Stage(r))}))
    else if k == 1 then Doing(v, LoadA(0))
    else if k == 2 then Waiting(When(v, {L0B(0)}))
    else if k == 3 then Doing(v, LoadB(0))
    else if k == 4 then Setting(When(v, {Mte1M}))
    else if k == 5 then Waiting(When(v, {L0A(1)}))
    else if k == 6 then Doing(v, LoadA(1))
    else if k == 7 then Waiting(When(v, {L0B(1)}))
    else if k == 8 then Doing(v, LoadB(1))
    else if k == 9 then Setting(When(v, {L1Writable(c.Stage(r))}))
    else if k == 10 then Setting(When(v, {Mte1M}))
    else Waiting({GoLate(CubeMte1), L0A(0), L0A(1), L0B(0), L0B(1)})
  }

  function CubeMmad128(c: Config, r: nat, k: nat): Instr {
    var v := c.Valid(r);
    if k == 0 then Instr({Go(CubeM)}, NoAct, {L0A(0), L0A(1), L0B(0), L0B(1)})
    else if k == 1 then Waiting(When(v, {FixM}))
    else if k == 2 then Waiting(When(v, {Mte1M}))
    else if k == 3 then Doing(v, Mmad(0))
    else if k == 4 then Setting(When(v, {L0A(0), L0B(0)}))
    else if k == 5 then Waiting(When(v, {Mte1M}))
    else if k == 6 then Doing(v, Mmad(1))
    else if k == 7 then Setting(When(v, {L0A(1), L0B(1)}))
    else Setting(When(v, {MFix}))
  }

  // K=256: four physical L0 stages, one task-local drain.
  function CubeLoad256(c: Config, r: nat, k: nat): Instr {
    var v := c.Valid(r);
    if k == 0 then Waiting({Go(CubeMte1)} + When(v, {L1Readable(c.Stage(r))}))
    else if k <= 12 then
      (if k % 3 == 1 then Doing(v, LoadA(k / 3))
       else if k % 3 == 2 then Doing(v, LoadB(k / 3))
       else Setting(When(v, {Mte1M})))
    else if k == 13 then Setting(When(v, {L1Writable(c.Stage(r))}))
    else Waiting(When(v, {L0Drain}))
  }

  function CubeMmad256(c: Config, r: nat, k: nat): Instr {
    var v := c.Valid(r);
    if k == 0 then Waiting({Go(CubeM)} + When(v, {FixM}))
    else if k <= 8 then
      (if k % 2 == 1 then Waiting(When(v, {Mte1M})) else Doing(v, Mmad(k / 2 - 1)))
    else if k == 9 then Setting(When(v, {L0Drain}))
    else Setting(When(v, {MFix}))
  }

  function CubeFixpipe(c: Config, r: nat, k: nat): Instr {
    var v := c.Valid(r);
    if k == 0 then Waiting({Go(CubeFix)} + When(v, {MFix}))
    else if k == 1 then Waiting({GoLate(CubeFix)})
    else if k == 2 then Doing(v, Commit)
    else if k == 3 then Setting({Ready(r % 2, Lane0), Ready(r % 2, Lane1)})
    else Setting(When(v, {FixM}))
  }

  function LaneScalar(c: Config, l: Lane, r: nat, k: nat): Instr {
    if k == 0 then Waiting({Ready(r % 2, l)})
    else Setting({Go(LaneMte2(l)), Go(LaneV(l))})
  }

  function LaneCopyIn(c: Config, l: Lane, r: nat, k: nat): Instr {
    var w := c.Work(l, r);
    if k == 0 then Waiting({Go(LaneMte2(l))} + When(w, {VMte2(l)}))
    else if k == 1 then Doing(w, CopyTile)
    else if k == 2 then Setting(When(w, {Mte2V(l)}))
    else Setting(When(r + 2 < c.Rounds(), {Free(r % 2, l)}))
  }

  function LaneVector(c: Config, l: Lane, r: nat, k: nat): Instr {
    var w := c.Work(l, r);
    if k == 0 then Waiting({Go(LaneV(l))})
    else if k == 1 then Doing(w, ClearTile)
    else if k == 2 then Setting(When(w, {VMte2(l)}))
    else if k == 3 then Waiting(When(w, {Mte2V(l)}))
    else Doing(w, MulTile)
  }

  // Number of instruction positions of one round.
  function Len(c: Config, p: Pipe): (n: nat)
    ensures n > 0
  {
    match p
    case CubeS => 3
    case CubeMte2 => 3
    case CubeMte1 => if c.variant.K256? then 15 else 12
    case CubeM => if c.variant.K256? then 11 else 9
    case CubeFix => 5
    case LaneS(_) => 2
    case LaneMte2(_) => 4
    case LaneV(_) => 5
  }

  function Fetch(c: Config, p: Pipe, r: nat, k: nat): Instr {
    match p
    case CubeS => CubeScalar(c, r, k)
    case CubeMte2 => CubeCopyIn(c, r, k)
    case CubeMte1 => if c.variant.K256? then CubeLoad256(c, r, k) else CubeLoad128(c, r, k)
    case CubeM => if c.variant.K256? then CubeMmad256(c, r, k) else CubeMmad128(c, r, k)
    case CubeFix => CubeFixpipe(c, r, k)
    case LaneS(l) => LaneScalar(c, l, r, k)
    case LaneMte2(l) => LaneCopyIn(c, l, r, k)
    case LaneV(l) => LaneVector(c, l, r, k)
  }

  // ---------------------------------------------------------------- execution

  datatype Pos = Pos(r: nat, k: nat)

  // One K-part product accumulated into L0C: which tile and part each operand came from.
  datatype Product = Product(aTile: int, aPart: int, bTile: int, bPart: int)

  /** Contents, named by the round whose tile they hold (-1: nothing yet). */
  datatype Data = Data(
    l1: int -> int,                     // stage -> tile
    l0a: int -> (int, int),             // part slot -> (tile, part)
    l0b: int -> (int, int),
    c1: seq<Product>,
    gm: int -> seq<Product>,            // workspace slot
    ub: Lane -> seq<Product>,           // KKT tile held by the lane
    seen: Lane -> seq<(nat, seq<Product>)>)  // (round, tile) of every KKT multiply

  datatype State = State(pc: Pipe -> Pos, flags: Flag -> int, data: Data)

  // Persistent events are opened before the loop; v03 also issues two warm-up prefetches.
  function InitFlag(c: Config, f: Flag): nat {
    match f
    case L1Writable(st) => if st == 0 || (st == 1 && c.variant.K128PingPong?) then 1 else 0
    case FixM => 1
    case Go(p) =>
      if p == CubeMte2 && c.variant.K128PingPong? then
        (if c.Rounds() < 2 then c.Rounds() else 2)
      else 0
    case _ => 0
  }

  ghost function InitData(): Data {
    Data(_ => -1, q => (-1, q), q => (-1, q), [], _ => [], _ => [], _ => [])
  }

  ghost function Init(c: Config): State {
    State(_ => Pos(0, 0), f => InitFlag(c, f), InitData())
  }

  function Next(c: Config, p: Pipe, at: Pos): Pos {
    if at.k + 1 < Len(c, p) then Pos(at.r, at.k + 1) else Pos(at.r + 1, 0)
  }

  ghost function Perform(c: Config, p: Pipe, act: Act, r: nat, d: Data): Data {
    match act
    case NoAct => d
    case CopyL1 => d.(l1 := st => if st == c.Stage(r) then r else d.l1(st))
    case LoadA(part) => d.(l0a := q => if q == part then (d.l1(c.Stage(r)), part) else d.l0a(q))
    case LoadB(part) => d.(l0b := q => if q == part then (d.l1(c.Stage(r)), part) else d.l0b(q))
    case Mmad(part) =>
      var product := Product(d.l0a(part).0, d.l0a(part).1, d.l0b(part).0, d.l0b(part).1);
      d.(c1 := if part == 0 then [product] else d.c1 + [product])
    case Commit => d.(gm := s => if s == r % 2 then d.c1 else d.gm(s))
    case ClearTile =>
      if !p.LaneV? then d else d.(ub := l => if l == p.l then [] else d.ub(l))
    case CopyTile =>
      if !p.LaneMte2? then d else d.(ub := l => if l == p.l then d.gm(r % 2) else d.ub(l))
    case MulTile =>
      if !p.LaneV? then d
      else d.(seen := l => if l == p.l then d.seen(l) + [(r, d.ub(l))] else d.seen(l))
  }

  ghost predicate Enabled(c: Config, s: State, p: Pipe) {
    && s.pc(p).r < c.Rounds()
    && forall f :: f in Fetch(c, p, s.pc(p).r, s.pc(p).k).waits ==> s.flags(f) >= 1
  }

  ghost function Exec(c: Config, s: State, p: Pipe): State {
    var at := s.pc(p);
    var i := Fetch(c, p, at.r, at.k);
    State(
      q => if q == p then Next(c, p, at) else s.pc(q),
      f => s.flags(f) - (if f in i.waits then 1 else 0) + (if f in i.sets then 1 else 0),
      Perform(c, p, i.act, at.r, s.data))
  }

  ghost predicate Finished(c: Config, s: State) {
    forall p :: s.pc(p).r == c.Rounds()
  }

  datatype Outcome = Stuck | Reached(s: State)

  /** The state after a schedule, a sequence of pipes each executing its next instruction;
      `Stuck` when some step was not enabled.  Every interleaving is such a schedule. */
  ghost function Play(c: Config, schedule: seq<Pipe>): Outcome {
    if schedule == [] then Reached(Init(c))
    else
      var before := Play(c, schedule[..|schedule| - 1]);
      var p := schedule[|schedule| - 1];
      if before.Reached? && Enabled(c, before.s, p) then Reached(Exec(c, before.s, p)) else Stuck
  }
}
