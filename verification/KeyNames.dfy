/**
 Telling operands from opcodes in a program. On the bytes of any list of well-formed
 instructions the walk marks exactly the numeric operands; on any bytes at all it ends and marks
 only steps that exist.
 */
module KeyNames {
  import opened Words

  /** A program step as stored. */
  type Keycode = Byte

  const IND: Keycode := 40
  const SBR: Keycode := 71
  const LBL: Keycode := 76

  /** PGM, STO, RCL, SUM, EXC, PRD, FIX, their indirect forms, OP, HIR, STF. */
  predicate HasOneOperand(kc: Keycode) {
    kc in {36, 42, 43, 44, 48, 49, 58, 62, 63, 64, 69, 72, 73, 74, 82, 83, 84, 86}
  }

  /** GTO, EQ, SBR, GE. */
  predicate IsBranch(kc: Keycode) { kc == 61 || kc == 67 || kc == SBR || kc == 77 }

  /** IFF, DSZ. */
  predicate IsTest(kc: Keycode) { kc == 87 || kc == 97 }

  predicate IsInv(kc: Keycode) { kc == 22 || kc == 27 }

  // ---------------------------------------------------------------- the walk

  /** Steps marked, and where the walk goes on. */
  datatype Consumed = Consumed(args: set<nat>, next: nat)

  /** The one step at `i`, when the program has it. */
  function Mark(steps: seq<Keycode>, i: nat): set<nat> {
    if i < |steps| then {i} else {}
  }

  /** A flag or register number: one step, or IND and a register. */
  function ConsumeNumber(steps: seq<Keycode>, start: nat): (c: Consumed)
    ensures start <= c.next
  {
    if start >= |steps| then Consumed({}, start)
    else if steps[start] == IND then Consumed(Mark(steps, start + 1), start + 2)
    else Consumed({start}, start + 1)
  }

  /** A branch destination: a two-step address, IND and a register, or a label. */
  function ConsumeDestination(steps: seq<Keycode>, start: nat): (c: Consumed)
    ensures start <= c.next
  {
    if start >= |steps| then Consumed({}, start)
    else if steps[start] <= 9 then Consumed({start} + Mark(steps, start + 1), start + 2)
    else if steps[start] == IND then Consumed(Mark(steps, start + 1), start + 2)
    else Consumed({}, start + 1)
  }

  /** What the opcode before `i` takes. */
  function ConsumeOperands(steps: seq<Keycode>, kc: Keycode, afterInv: bool, i: nat): (c: Consumed)
    ensures i <= c.next
  {
    if IsBranch(kc) then
      if kc == SBR && afterInv then Consumed({}, i) else ConsumeDestination(steps, i)
    else if IsTest(kc) then
      var number := ConsumeNumber(steps, i);
      var destination := ConsumeDestination(steps, number.next);
      Consumed(number.args + destination.args, destination.next)
    else if HasOneOperand(kc) then Consumed(Mark(steps, i), i + 1)
    else Consumed({}, i)
  }

  /** The operands from step `i` on. */
  function Walk(steps: seq<Keycode>, i: nat, afterInv: bool): set<nat>
    decreases |steps| - i
  {
    if i >= |steps| then {}
    else
      var c := ConsumeOperands(steps, steps[i], afterInv, i + 1);
      c.args + Walk(steps, c.next, IsInv(steps[i]))
  }

  lemma OperandsExist(steps: seq<Keycode>, kc: Keycode, afterInv: bool, i: nat)
    ensures forall k :: k in ConsumeOperands(steps, kc, afterInv, i).args ==> i <= k < |steps|
  {
  }

  /** On any bytes only steps of the program are marked. */
  lemma {:induction false} WalkStaysInside(steps: seq<Keycode>, i: nat, afterInv: bool)
    ensures forall k :: k in Walk(steps, i, afterInv) ==> i < k < |steps|
    decreases |steps| - i
  {
    hide ConsumeOperands;
    if i < |steps| {
      OperandsExist(steps, steps[i], afterInv, i + 1);
      WalkStaysInside(steps, ConsumeOperands(steps, steps[i], afterInv, i + 1).next, IsInv(steps[i]));
    }
  }

  method ArgumentSteps(steps: seq<Keycode>) returns (args: set<nat>)
    ensures args == Walk(steps, 0, false)
    ensures forall k :: k in args ==> k < |steps|
  {
    hide HasOneOperand;
    args := {};
    var i := 0;
    var previousWasInv := false;
    while i < |steps|
      invariant args + Walk(steps, i, previousWasInv) == Walk(steps, 0, false)
      decreases |steps| - i
    {
      var kc := steps[i];
      i := i + 1;
      var at, was := i, args;
      if IsBranch(kc) {
        if !(kc == SBR && previousWasInv) {
          args, i := Destination(steps, i, args);
        }
      } else if IsTest(kc) {
        args, i := Number(steps, i, args);
        args, i := Destination(steps, i, args);
      } else if HasOneOperand(kc) {
        if i < |steps| {
          args := args + {i};
        }
        i := i + 1;
      }
      ghost var c := ConsumeOperands(steps, kc, previousWasInv, at);
      assert i == c.next && args == was + c.args;
      assert was + (c.args + Walk(steps, c.next, IsInv(kc))) == args + Walk(steps, i, IsInv(kc));
      previousWasInv := IsInv(kc);
    }
    WalkStaysInside(steps, 0, false);
  }

  method Number(steps: seq<Keycode>, start: nat, args: set<nat>) returns (more: set<nat>, next: nat)
    ensures more == args + ConsumeNumber(steps, start).args && next == ConsumeNumber(steps, start).next
  {
    if start >= |steps| {
      return args, start;
    }
    if steps[start] == IND {
      return if start + 1 < |steps| then args + {start + 1} else args, start + 2;
    }
    return args + {start}, start + 1;
  }

  method Destination(steps: seq<Keycode>, start: nat, args: set<nat>) returns (more: set<nat>, next: nat)
    ensures more == args + ConsumeDestination(steps, start).args && next == ConsumeDestination(steps, start).next
  {
    if start >= |steps| {
      return args, start;
    }
    var first := steps[start];
    if first <= 9 {
      more := args + {start};
      return if start + 1 < |steps| then more + {start + 1} else more, start + 2;
    }
    if first == IND {
      return if start + 1 < |steps| then args + {start + 1} else args, start + 2;
    }
    return args, start + 1;
  }

  // ---------------------------------------------------------------- the grammar

  /** The keys a register, flag, digit or number follows; `Ind` forms are keys of their own. */
  datatype Store =
    | Pgm | Sto | Rcl | Sum | Exc | Prd | Fix | Op | Hir | Stf
    | PgmInd | StoInd | RclInd | SumInd | ExcInd | PrdInd | OpInd | GtoInd

  /** The keys a destination follows, and those a number and a destination follow. */
  datatype Jump = Gto | Eq | Sbr | Ge

  datatype Check = Iff | Dsz

  function StoreCode(k: Store): Keycode {
    match k
    case Pgm => 36
    case Sto => 42
    case Rcl => 43
    case Sum => 44
    case Exc => 48
    case Prd => 49
    case Fix => 58
    case Op => 69
    case Hir => 82
    case Stf => 86
    case PgmInd => 62
    case StoInd => 72
    case RclInd => 73
    case SumInd => 74
    case ExcInd => 63
    case PrdInd => 64
    case OpInd => 84
    case GtoInd => 83
  }

  function JumpCode(k: Jump): Keycode {
    match k
    case Gto => 61
    case Eq => 67
    case Sbr => 71
    case Ge => 77
  }

  function CheckCode(k: Check): Keycode {
    match k
    case Iff => 87
    case Dsz => 97
  }

  /** INV has two codes. */
  function InvCode(second: bool): Keycode { if second then 27 else 22 }

  /** A key that nothing belongs to and that is not INV. */
  ghost predicate IsBare(kc: Keycode) {
    && (forall k: Store :: kc != StoreCode(k)) && (forall k: Jump :: kc != JumpCode(k)) && (forall k: Check :: kc != CheckCode(k))
    && forall second: bool :: kc != InvCode(second)
  }

  datatype Dest = Address(hi: Keycode, lo: Keycode) | IndirectTo(reg: Keycode) | Label(key: Keycode)

  datatype Num = Direct(n: Keycode) | Indirect(reg: Keycode)

  /** Return is INV SBR. */
  datatype Instruction =
    | Bare(kc: Keycode) | Invert(second: bool) | Access(store: Store, operand: Keycode) | Go(jump: Jump, dest: Dest)
    | Ask(check: Check, num: Num, dest: Dest) | Return(second: bool) | DefineLabel(key: Keycode)

  predicate DestOk(d: Dest) {
    match d
    case Address(hi, _) => hi <= 9
    case IndirectTo(_) => true
    case Label(key) => key > 9 && key != IND
  }

  ghost predicate InstructionOk(x: Instruction) {
    match x
    case Bare(kc) => IsBare(kc) && kc != LBL
    case Go(_, d) => DestOk(d)
    case Ask(_, num, d) => DestOk(d) && (num.Direct? ==> num.n != IND)
    case DefineLabel(key) => IsBare(key)
    case _ => true
  }

  /** SBR right after INV is INV SBR, not a call. */
  ghost predicate ProgramOk(p: seq<Instruction>, afterInv: bool) {
    p == [] ||
    (InstructionOk(p[0]) && !(afterInv && p[0].Go? && p[0].jump == Sbr) && ProgramOk(p[1..], p[0].Invert?))
  }

  /** The code of the key an instruction starts with. */
  function FirstCode(x: Instruction): Keycode {
    match x
    case Bare(kc) => kc
    case Invert(second) => InvCode(second)
    case Access(store, _) => StoreCode(store)
    case Go(jump, _) => JumpCode(jump)
    case Ask(check, _, _) => CheckCode(check)
    case Return(second) => InvCode(second)
    case DefineLabel(_) => 76
  }

  function DestBytes(d: Dest): seq<Keycode> {
    match d
    case Address(hi, lo) => [hi, lo]
    case IndirectTo(reg) => [IND, reg]
    case Label(key) => [key]
  }

  function NumBytes(n: Num): seq<Keycode> {
    match n
    case Direct(k) => [k]
    case Indirect(reg) => [IND, reg]
  }

  function Bytes(x: Instruction): (b: seq<Keycode>)
    ensures b != []
  {
    match x
    case Bare(kc) => [kc]
    case Invert(second) => [InvCode(second)]
    case Access(store, operand) => [StoreCode(store), operand]
    case Go(jump, d) => [JumpCode(jump)] + DestBytes(d)
    case Ask(check, num, d) => [CheckCode(check)] + NumBytes(num) + DestBytes(d)
    case Return(second) => [InvCode(second), 71]
    case DefineLabel(key) => [76, key]
  }

  function Flattened(p: seq<Instruction>): seq<Keycode> {
    if p == [] then [] else Bytes(p[0]) + Flattened(p[1..])
  }

  /** Which bytes of a destination, or of a number, are numbers. */
  function DestNumbers(d: Dest): set<nat> {
    match d
    case Address(_, _) => {0, 1}
    case IndirectTo(_) => {1}
    case Label(_) => {}
  }

  function NumNumbers(n: Num): set<nat> {
    match n
    case Direct(_) => {0}
    case Indirect(_) => {1}
  }

  function Shifted(s: set<nat>, offset: nat): set<nat> {
    set k | k in s :: k + offset
  }

  /** The numeric operands of an instruction that starts at step `at`. */
  function Numbers(x: Instruction, at: nat): set<nat> {
    match x
    case Access(_, _) => {at + 1}
    case Go(_, d) => Shifted(DestNumbers(d), at + 1)
    case Ask(_, num, d) => Shifted(NumNumbers(num), at + 1) + Shifted(DestNumbers(d), at + 1 + |NumBytes(num)|)
    case _ => {}
  }

  function AllNumbers(p: seq<Instruction>, at: nat): set<nat> {
    if p == [] then {} else Numbers(p[0], at) + AllNumbers(p[1..], at + |Bytes(p[0])|)
  }

  /** The bytes at `at` are exactly `b`. */
  ghost predicate StandsAt(steps: seq<Keycode>, at: nat, b: seq<Keycode>) {
    at + |b| <= |steps| && steps[at..at + |b|] == b
  }

  lemma ByteAt(steps: seq<Keycode>, at: nat, b: seq<Keycode>, k: nat)
    requires StandsAt(steps, at, b) && k < |b|
    ensures steps[at + k] == b[k]
  {
    assert steps[at + k] == steps[at..at + |b|][k];
  }

  lemma DestConsumed(steps: seq<Keycode>, at: nat, d: Dest)
    requires DestOk(d) && StandsAt(steps, at, DestBytes(d))
    ensures ConsumeDestination(steps, at) == Consumed(Shifted(DestNumbers(d), at), at + |DestBytes(d)|)
  {
    ByteAt(steps, at, DestBytes(d), 0);
  }

  lemma NumConsumed(steps: seq<Keycode>, at: nat, n: Num)
    requires (n.Direct? ==> n.n != IND) && StandsAt(steps, at, NumBytes(n))
    ensures ConsumeNumber(steps, at) == Consumed(Shifted(NumNumbers(n), at), at + |NumBytes(n)|)
  {
    ByteAt(steps, at, NumBytes(n), 0);
  }

  lemma PartsStand(steps: seq<Keycode>, at: nat, a: seq<Keycode>, b: seq<Keycode>)
    requires StandsAt(steps, at, a + b)
    ensures StandsAt(steps, at, a) && StandsAt(steps, at + |a|, b)
  {
    assert steps[at..at + |a + b|][..|a|] == a && steps[at..at + |a + b|][|a|..] == b;
  }

  /** One opcode with what it takes. */
  lemma OpcodeWalked(steps: seq<Keycode>, at: nat, afterInv: bool)
    requires at < |steps|
    ensures var c := ConsumeOperands(steps, steps[at], afterInv, at + 1);
            Walk(steps, at, afterInv) == c.args + Walk(steps, c.next, IsInv(steps[at]))
  {
  }

  /** Two opcodes that take nothing. */
  lemma TwoBareWalked(steps: seq<Keycode>, at: nat, afterInv: bool)
    requires at + 1 < |steps|
    requires ConsumeOperands(steps, steps[at], afterInv, at + 1) == Consumed({}, at + 1)
    requires ConsumeOperands(steps, steps[at + 1], IsInv(steps[at]), at + 2) == Consumed({}, at + 2)
    ensures Walk(steps, at, afterInv) == Walk(steps, at + 2, IsInv(steps[at + 1]))
  {
    hide ConsumeOperands, Walk;
    OpcodeWalked(steps, at, afterInv);
    OpcodeWalked(steps, at + 1, IsInv(steps[at]));
  }

  lemma AskOperands(steps: seq<Keycode>, at: nat, check: Check, num: Num, d: Dest, afterInv: bool)
    requires InstructionOk(Ask(check, num, d)) && StandsAt(steps, at, Bytes(Ask(check, num, d)))
    ensures ConsumeOperands(steps, CheckCode(check), afterInv, at + 1) ==
            Consumed(Numbers(Ask(check, num, d), at), at + |Bytes(Ask(check, num, d))|)
  {
    PartsStand(steps, at, [CheckCode(check)] + NumBytes(num), DestBytes(d));
    PartsStand(steps, at, [CheckCode(check)], NumBytes(num));
    hide Shifted, ConsumeNumber, ConsumeDestination, DestNumbers, NumNumbers, DestOk, StandsAt, NumBytes, DestBytes, HasOneOperand;
    NumConsumed(steps, at + 1, num);
    DestConsumed(steps, at + 1 + |NumBytes(num)|, d);
  }

  lemma GoOperands(steps: seq<Keycode>, at: nat, jump: Jump, d: Dest, afterInv: bool)
    requires InstructionOk(Go(jump, d)) && StandsAt(steps, at, Bytes(Go(jump, d))) && !(afterInv && jump == Sbr)
    ensures ConsumeOperands(steps, JumpCode(jump), afterInv, at + 1) ==
            Consumed(Numbers(Go(jump, d), at), at + |Bytes(Go(jump, d))|)
  {
    PartsStand(steps, at, [JumpCode(jump)], DestBytes(d));
    hide Shifted, ConsumeDestination, DestNumbers, DestOk, StandsAt, DestBytes, HasOneOperand;
    DestConsumed(steps, at + 1, d);
  }

  lemma OperandsAre(steps: seq<Keycode>, at: nat, x: Instruction, afterInv: bool)
    requires InstructionOk(x) && StandsAt(steps, at, Bytes(x)) && !(afterInv && x.Go? && x.jump == Sbr)
    requires !x.Return? && !x.DefineLabel?
    ensures at < |steps| && steps[at] == FirstCode(x)
    ensures ConsumeOperands(steps, FirstCode(x), afterInv, at + 1) == Consumed(Numbers(x, at), at + |Bytes(x)|)
  {
    ByteAt(steps, at, Bytes(x), 0);
    match x {
      case Go(jump, d) => GoOperands(steps, at, jump, d, afterInv);
      case Ask(check, num, d) => AskOperands(steps, at, check, num, d, afterInv);
      case _ => SimpleOperands(steps, at, x, afterInv);
    }
    hide ConsumeOperands, Numbers;
  }

  lemma SimpleOperands(steps: seq<Keycode>, at: nat, x: Instruction, afterInv: bool)
    requires InstructionOk(x) && StandsAt(steps, at, Bytes(x)) && (x.Bare? || x.Invert? || x.Access?)
    ensures ConsumeOperands(steps, FirstCode(x), afterInv, at + 1) == Consumed(Numbers(x, at), at + |Bytes(x)|)
  {
    hide HasOneOperand, StandsAt, StoreCode, IsBare;
    assert at + |Bytes(x)| <= |steps| by { Fits(steps, at, Bytes(x)); }
    match x {
      case Bare(kc) => BareTakesNothing(kc);
      case Access(store, _) => StoresTakeOne(store);
      case Invert(second) => NoOperand();
    }
  }

  lemma Fits(steps: seq<Keycode>, at: nat, b: seq<Keycode>)
    requires StandsAt(steps, at, b)
    ensures at + |b| <= |steps|
  {
  }

  /** An opcode the walk takes nothing for. */
  predicate TakesNothing(kc: Keycode) { !IsBranch(kc) && !IsTest(kc) && !HasOneOperand(kc) }

  lemma StoresTakeOne(store: Store)
    ensures HasOneOperand(StoreCode(store)) && !IsBranch(StoreCode(store)) && !IsTest(StoreCode(store)) && !IsInv(StoreCode(store))
  {
  }

  /** The walk's tables list exactly the codes of the named keys. */
  lemma BareTakesNothing(kc: Keycode)
    ensures IsBare(kc) <==> TakesNothing(kc) && !IsInv(kc)
  {
    if TakesNothing(kc) && !IsInv(kc) {
      forall k: Store ensures kc != StoreCode(k) {
        StoresTakeOne(k);
      }
    } else if HasOneOperand(kc) {
      CodeOfStore(kc);
    } else if IsInv(kc) {
      assert kc == InvCode(false) || kc == InvCode(true);
    } else if IsBranch(kc) {
      assert kc == JumpCode(Gto) || kc == JumpCode(Eq) || kc == JumpCode(Sbr) || kc == JumpCode(Ge);
    } else {
      assert kc == CheckCode(Iff) || kc == CheckCode(Dsz);
    }
  }

  lemma CodeOfStore(kc: Keycode)
    requires HasOneOperand(kc)
    ensures exists k: Store :: kc == StoreCode(k)
  {
    if kc < 60 {
      assert kc in {StoreCode(Pgm), StoreCode(Sto), StoreCode(Rcl), StoreCode(Sum), StoreCode(Exc), StoreCode(Prd), StoreCode(Fix)};
    } else if kc < 75 {
      assert kc in {StoreCode(PgmInd), StoreCode(ExcInd), StoreCode(PrdInd), StoreCode(Op), StoreCode(StoInd), StoreCode(RclInd),
                    StoreCode(SumInd)};
    } else {
      assert kc in {StoreCode(Hir), StoreCode(GtoInd), StoreCode(OpInd), StoreCode(Stf)};
    }
  }

  lemma KeyKinds(kc: Keycode)
    ensures HasOneOperand(kc) ==> !IsBranch(kc) && !IsTest(kc)
  {
  }

  /** One instruction is walked over whole, its numbers marked. */
  lemma InstructionWalked(steps: seq<Keycode>, at: nat, x: Instruction, afterInv: bool)
    requires InstructionOk(x) && StandsAt(steps, at, Bytes(x)) && !(afterInv && x.Go? && x.jump == Sbr)
    ensures Walk(steps, at, afterInv) == Numbers(x, at) + Walk(steps, at + |Bytes(x)|, x.Invert?)
  {
    if x.Return? || x.DefineLabel? {
      hide HasOneOperand, Walk, StandsAt, IsBare;
      Fits(steps, at, Bytes(x));
      ByteAt(steps, at, Bytes(x), 0);
      ByteAt(steps, at, Bytes(x), 1);
      NoOperand();
      if x.DefineLabel? {
        BareTakesNothing(x.key);
      }
      TwoBareWalked(steps, at, afterInv);
    } else {
      hide ConsumeOperands, Walk, Numbers, HasOneOperand, IsBare;
      OperandsAre(steps, at, x, afterInv);
      OpcodeWalked(steps, at, afterInv);
      OnlyInvertInv(x);
    }
  }

  lemma OnlyInvertInv(x: Instruction)
    requires InstructionOk(x) && !x.Return? && !x.DefineLabel?
    ensures IsInv(FirstCode(x)) <==> x.Invert?
  {
    if x.Bare? {
      BareTakesNothing(x.kc);
    }
    hide HasOneOperand, IsBare;
  }

  /** A program is its first instruction and the rest. */
  lemma FirstAndRest(steps: seq<Keycode>, at: nat, p: seq<Instruction>, afterInv: bool)
    requires p != [] && ProgramOk(p, afterInv) && StandsAt(steps, at, Flattened(p))
    ensures var x := p[0];
            var next := at + |Bytes(x)|;
            && InstructionOk(x) && StandsAt(steps, at, Bytes(x)) && !(afterInv && x.Go? && x.jump == Sbr)
            && ProgramOk(p[1..], x.Invert?) && StandsAt(steps, next, Flattened(p[1..]))
            && at + |Flattened(p)| == next + |Flattened(p[1..])|
            && AllNumbers(p, at) == Numbers(x, at) + AllNumbers(p[1..], next)
  {
    hide Bytes, Numbers, InstructionOk, StandsAt;
    PartsStand(steps, at, Bytes(p[0]), Flattened(p[1..]));
  }

  lemma EmptyProgram(at: nat)
    ensures Flattened([]) == [] && AllNumbers([], at) == {}
  {
  }

  lemma {:induction false} ProgramWalked(steps: seq<Keycode>, at: nat, p: seq<Instruction>, afterInv: bool)
    requires ProgramOk(p, afterInv) && StandsAt(steps, at, Flattened(p)) && at + |Flattened(p)| == |steps|
    ensures Walk(steps, at, afterInv) == AllNumbers(p, at)
    decreases |p|
  {
    hide *;
    if p == [] {
      EmptyProgram(at);
      WalkEnds(steps, at, afterInv);
    } else {
      FirstAndRest(steps, at, p, afterInv);
      InstructionWalked(steps, at, p[0], afterInv);
      ProgramWalked(steps, at + |Bytes(p[0])|, p[1..], p[0].Invert?);
    }
  }

  /** On the bytes of a well-formed program the walk marks exactly its numeric operands. */
  lemma OperandsFollowGrammar(p: seq<Instruction>)
    requires ProgramOk(p, false)
    ensures Walk(Flattened(p), 0, false) == AllNumbers(p, 0)
  {
    hide Walk, AllNumbers, ProgramOk, Flattened;
    assert Flattened(p)[0..|Flattened(p)|] == Flattened(p);
    ProgramWalked(Flattened(p), 0, p, false);
  }

  /** The walk goes on after a label definition as if the label's key were not there. */
  ghost predicate LabelSkipped(key: Keycode) {
    forall rest: seq<Keycode> :: Walk([LBL, key] + rest, 0, false) == Walk([LBL, key] + rest, 2, false)
  }

  lemma BareLabelSkipped(key: Keycode, rest: seq<Keycode>)
    requires IsBare(key)
    ensures Walk([LBL, key] + rest, 0, false) == Walk([LBL, key] + rest, 2, false)
  {
    hide HasOneOperand, Walk, IsBare;
    BareTakesNothing(key);
    NoOperand();
    TwoBareWalked([LBL, key] + rest, 0, false);
  }

  /** A step past the end of the program. */
  lemma WalkEnds(steps: seq<Keycode>, i: nat, afterInv: bool)
    requires i >= |steps|
    ensures Walk(steps, i, afterInv) == {}
  {
  }

  lemma LabelByteWalked(key: Keycode, rest: seq<Keycode>)
    ensures var steps := [LBL, key] + rest;
            var c := ConsumeOperands(steps, key, false, 2);
            Walk(steps, 0, false) == c.args + Walk(steps, c.next, IsInv(key))
  {
    hide HasOneOperand, Walk;
    var steps := [LBL, key] + rest;
    NoOperand();
    OpcodeWalked(steps, 0, false);
    OpcodeWalked(steps, 1, false);
  }

  /** A label named by a key that takes an operand: the step after it, here 0, is taken for one. */
  lemma OperandLabelMisread(key: Keycode)
    requires !TakesNothing(key)
    ensures Walk([LBL, key] + [0], 0, false) == {2} && Walk([LBL, key] + [0], 2, false) == {}
  {
    var steps := [LBL, key] + [0];
    LabelByteWalked(key, [0]);
    OpcodeWalked(steps, 2, false);
    NoOperand();
    KeyKinds(key);
    WalkEnds(steps, 3, false);
    WalkEnds(steps, 3, IsInv(key));
    WalkEnds(steps, 4, IsInv(key));
    hide HasOneOperand, Walk;
    assert ConsumeOperands(steps, key, false, 2).args == {2};
  }

  /** A label named INV: a call after it loses its destination. */
  lemma InvLabelMisread(key: Keycode)
    requires IsInv(key)
    ensures 3 !in Walk([LBL, key] + [SBR, 5], 0, false) && 3 in Walk([LBL, key] + [SBR, 5], 2, false)
  {
    hide HasOneOperand, Walk;
    var steps := [LBL, key] + [SBR, 5];
    NoOperand();
    LabelByteWalked(key, [SBR, 5]);
    OpcodeWalked(steps, 2, true);
    OpcodeWalked(steps, 2, false);
    WalkStaysInside(steps, 3, false);
  }

  /**
   LBL's own operand is not skipped by the walk. It does no harm exactly when the label's key is
   one that takes nothing and is not INV; LBL SUM, for one, marks the opcode after it.
   */
  lemma LabelSkippedExactly(key: Keycode)
    ensures LabelSkipped(key) <==> IsBare(key)
  {
    hide HasOneOperand, Walk, TakesNothing, IsInv, IsBare;
    BareTakesNothing(key);
    if TakesNothing(key) && !IsInv(key) {
      forall rest: seq<Keycode> ensures Walk([LBL, key] + rest, 0, false) == Walk([LBL, key] + rest, 2, false) {
        BareLabelSkipped(key, rest);
      }
    } else if IsInv(key) {
      InvLabelMisread(key);
    } else {
      OperandLabelMisread(key);
    }
  }

  /**
   FIX IND and STF IND are two codes: the walk takes IND for the number. Whatever follows, IND's
   step is marked and the register's is not; the register's number is read as an opcode.
   */
  lemma IndirectFixMisread(store: Store, reg: Keycode, rest: seq<Keycode>)
    requires store == Fix || store == Stf
    ensures var steps := [StoreCode(store), IND, reg] + rest;
            && 1 in Walk(steps, 0, false) && 2 !in Walk(steps, 0, false)
            && Walk(steps, 0, false) == {1} + Walk(steps, 2, false)
  {
    var steps := [StoreCode(store), IND, reg] + rest;
    StoresTakeOne(store);
    hide HasOneOperand, Walk;
    OpcodeWalked(steps, 0, false);
    WalkStaysInside(steps, 2, false);
  }

  lemma NoOperand()
    ensures !HasOneOperand(LBL) && !HasOneOperand(22) && !HasOneOperand(27) && !HasOneOperand(0) && !HasOneOperand(5)
  {
  }
}
