/** The seccomp program of the sandbox launcher: a classic BPF table with forward
    relative jumps, its interpreter, and the policy it has to decide. */
module SeccompFilter {
  import opened Base

  // ---------------------------------------------------------------------------
  // Classic BPF over a seccomp record
  // ---------------------------------------------------------------------------

  /** One system call as the kernel presents it to a filter. */
  datatype Syscall = Syscall(nr: bv32, arch: bv32, ip: bv64,
                             arg0: bv64, arg1: bv64, arg2: bv64, arg3: bv64, arg4: bv64, arg5: bv64)

  function Low(x: bv64): bv32 {
    (x & 0xFFFF_FFFF) as bv32
  }

  function High(x: bv64): bv32 {
    (x >> 32) as bv32
  }

  /** The 32-bit word at a byte offset of the record, little-endian. */
  function Word(call: Syscall, offset: nat): Option<bv32> {
    match offset
    case 0 => Some(call.nr)
    case 4 => Some(call.arch)
    case 8 => Some(Low(call.ip))
    case 12 => Some(High(call.ip))
    case 16 => Some(Low(call.arg0))
    case 20 => Some(High(call.arg0))
    case 24 => Some(Low(call.arg1))
    case 28 => Some(High(call.arg1))
    case 32 => Some(Low(call.arg2))
    case 36 => Some(High(call.arg2))
    case 40 => Some(Low(call.arg3))
    case 44 => Some(High(call.arg3))
    case 48 => Some(Low(call.arg4))
    case 52 => Some(High(call.arg4))
    case 56 => Some(Low(call.arg5))
    case 60 => Some(High(call.arg5))
    case _ => None
  }

  datatype Instr =
    | LoadWord(offset: nat)
    | AndConst(k: bv32)
    | JumpEq(k: bv32, ifTrue: nat, ifFalse: nat)
    | JumpSet(k: bv32, ifTrue: nat, ifFalse: nat)
    | Return(value: bv32)

  /** Runs the table from `pc`; no value when control leaves the table or reads outside the record. */
  function Run(code: seq<Instr>, pc: nat, acc: bv32, call: Syscall): Option<bv32>
    decreases if pc <= |code| then |code| - pc else 0
  {
    if pc >= |code| then None else
    match code[pc]
    case LoadWord(offset) =>
      var word := Word(call, offset);
      if word.None? then None else Run(code, pc + 1, word.value, call)
    case AndConst(k) => Run(code, pc + 1, acc & k, call)
    case JumpEq(k, ifTrue, ifFalse) => Run(code, pc + 1 + (if acc == k then ifTrue else ifFalse), acc, call)
    case JumpSet(k, ifTrue, ifFalse) =>
      Run(code, pc + 1 + (if acc & k != 0 then ifTrue else ifFalse), acc, call)
    case Return(value) => Some(value)
  }

  // ---------------------------------------------------------------------------
  // The launcher's table
  // ---------------------------------------------------------------------------

  const AUDIT_ARCH_X86_64: bv32 := 0xC000_003E
  const X32_BIT: bv32 := 0x4000_0000
  const SYS_IOCTL: bv32 := 16
  const SYS_SOCKETPAIR: bv32 := 53
  const SYS_CLONE: bv32 := 56
  const SYS_FCNTL: bv32 := 72
  const SYS_PRCTL: bv32 := 157
  const SYS_PRLIMIT64: bv32 := 302
  const SYS_CLONE3: bv32 := 435
  const FIONBIO: bv32 := 0x5421
  const FIONREAD: bv32 := 0x541B
  const AF_UNIX: bv32 := 1
  const SOCK_STREAM: bv32 := 1
  const SOCK_CLOEXEC: bv32 := 0x80000
  const SOCK_NONBLOCK: bv32 := 0x800
  const F_DUPFD: bv32 := 0
  const F_GETFD: bv32 := 1
  const F_SETFD: bv32 := 2
  const F_GETFL: bv32 := 3
  const F_SETFL: bv32 := 4
  const F_DUPFD_CLOEXEC: bv32 := 1030
  const PR_SET_NAME: bv32 := 15
  const PR_GET_NAME: bv32 := 16
  const EPERM: bv32 := 1
  const ENOSYS: bv32 := 38

  /** The exit-signal byte and the thread, fork and vfork flags a clone may carry. */
  const CLONE_FLAGS: bv32 :=
    0xFF | 0x100 | 0x200 | 0x400 | 0x800 | 0x4000 | 0x10000 | 0x40000 | 0x80000 | 0x100000 | 0x200000 | 0x1000000

  datatype Verdict = Allow | Errno(code: bv32) | KillProcess

  /** The 32-bit action word of a verdict. */
  function ActionWord(v: Verdict): bv32 {
    match v
    case Allow => 0x7FFF_0000
    case Errno(code) => 0x0005_0000 | code
    case KillProcess => 0x8000_0000
  }

  function Ret(v: Verdict): Instr {
    Return(ActionWord(v))
  }

  function ArchBlock(): (code: seq<Instr>)
    ensures |code| == 4
  {
    [LoadWord(4), JumpEq(AUDIT_ARCH_X86_64, 1, 0), Ret(KillProcess), LoadWord(0)]
  }

  function X32Block(): (code: seq<Instr>)
    ensures |code| == 2
  {
    [JumpSet(X32_BIT, 0, 1), Ret(Errno(EPERM))]
  }

  function Clone3Block(): (code: seq<Instr>)
    ensures |code| == 2
  {
    [JumpEq(SYS_CLONE3, 0, 1), Ret(Errno(ENOSYS))]
  }

  function CloneBlock(): (code: seq<Instr>)
    ensures |code| == 8
  {
    [ JumpEq(SYS_CLONE, 0, 7), LoadWord(20), JumpEq(0, 1, 0), Ret(Errno(EPERM)),
      LoadWord(16), JumpSet(!CLONE_FLAGS, 0, 1), Ret(Errno(EPERM)), Ret(Allow)]
  }

  function IoctlBlock(): (code: seq<Instr>)
    ensures |code| == 6
  {
    [ JumpEq(SYS_IOCTL, 0, 5), LoadWord(24), JumpEq(FIONBIO, 2, 0), JumpEq(FIONREAD, 1, 0),
      Ret(Errno(EPERM)), Ret(Allow)]
  }

  function SocketpairBlock(): (code: seq<Instr>)
    ensures |code| == 12
  {
    [ JumpEq(SYS_SOCKETPAIR, 0, 11), LoadWord(16), JumpEq(AF_UNIX, 1, 0), Ret(Errno(EPERM)),
      LoadWord(24), AndConst(!(SOCK_CLOEXEC | SOCK_NONBLOCK)), JumpEq(SOCK_STREAM, 1, 0), Ret(Errno(EPERM)),
      LoadWord(32), JumpEq(0, 1, 0), Ret(Errno(EPERM)), Ret(Allow)]
  }

  function FcntlBlock(): (code: seq<Instr>)
    ensures |code| == 10
  {
    [ JumpEq(SYS_FCNTL, 0, 9), LoadWord(24), JumpEq(F_GETFD, 6, 0), JumpEq(F_SETFD, 5, 0), JumpEq(F_GETFL, 4, 0),
      JumpEq(F_SETFL, 3, 0), JumpEq(F_DUPFD, 2, 0), JumpEq(F_DUPFD_CLOEXEC, 1, 0), Ret(Errno(EPERM)), Ret(Allow)]
  }

  function PrlimitBlock(): (code: seq<Instr>)
    ensures |code| == 5
  {
    [JumpEq(SYS_PRLIMIT64, 0, 4), LoadWord(16), JumpEq(0, 1, 0), Ret(Errno(EPERM)), Ret(Allow)]
  }

  function PrctlBlock(): (code: seq<Instr>)
    ensures |code| == 6
  {
    [ JumpEq(SYS_PRCTL, 0, 5), LoadWord(16), JumpEq(PR_SET_NAME, 2, 0), JumpEq(PR_GET_NAME, 1, 0),
      Ret(Errno(EPERM)), Ret(Allow)]
  }

  /** What the ALLOW macro expands to, for each number of a list. */
  function AllowBlock(allowed: seq<bv32>): (code: seq<Instr>)
    ensures |code| == 2 * |allowed|
  {
    if allowed == [] then [] else [JumpEq(allowed[0], 0, 1), Ret(Allow)] + AllowBlock(allowed[1..])
  }

  function LaterChecks(allowed: seq<bv32>): seq<Instr> {
    FcntlBlock() + (PrlimitBlock() + (PrctlBlock() + (AllowBlock(allowed) + [Ret(Errno(EPERM))])))
  }

  function GuardChecks(allowed: seq<bv32>): seq<Instr> {
    CloneBlock() + (IoctlBlock() + (SocketpairBlock() + LaterChecks(allowed)))
  }

  /** The table after the architecture check, for an arbitrary allow list. */
  function NumberChecks(allowed: seq<bv32>): seq<Instr> {
    X32Block() + (Clone3Block() + GuardChecks(allowed))
  }

  function Table(allowed: seq<bv32>): seq<Instr> {
    ArchBlock() + NumberChecks(allowed)
  }

  // ---------------------------------------------------------------------------
  // The intended decision
  // ---------------------------------------------------------------------------

  const GUARDED: set<bv32> := {SYS_CLONE, SYS_IOCTL, SYS_SOCKETPAIR, SYS_FCNTL, SYS_PRLIMIT64, SYS_PRCTL}

  /** No flag outside the permitted ones, judged on all 64 bits. */
  predicate OnlyPermittedFlags(flags: bv64) {
    flags & !(CLONE_FLAGS as bv64) == 0
  }

  predicate StreamKind(kind: bv32) {
    kind & !(SOCK_CLOEXEC | SOCK_NONBLOCK) == SOCK_STREAM
  }

  /** A private UNIX stream pair, with any close-on-exec or nonblocking bits. */
  predicate PermittedPair(family: bv32, kind: bv32, protocol: bv32) {
    family == AF_UNIX && StreamKind(kind) && protocol == 0
  }

  /** A native call the sandbox lets through: an argument-guarded call whose arguments pass,
      or an unguarded call on the allow list. */
  predicate Permitted(allowed: seq<bv32>, call: Syscall) {
    || (call.nr == SYS_CLONE && OnlyPermittedFlags(call.arg0))
    || (call.nr == SYS_IOCTL && Low(call.arg1) in {FIONBIO, FIONREAD})
    || (call.nr == SYS_SOCKETPAIR && PermittedPair(Low(call.arg0), Low(call.arg1), Low(call.arg2)))
    || (call.nr == SYS_FCNTL && Low(call.arg1) in {F_DUPFD, F_GETFD, F_SETFD, F_GETFL, F_SETFL, F_DUPFD_CLOEXEC})
    || (call.nr == SYS_PRLIMIT64 && Low(call.arg0) == 0)
    || (call.nr == SYS_PRCTL && Low(call.arg0) in {PR_SET_NAME, PR_GET_NAME})
    || (call.nr !in GUARDED && call.nr in allowed)
  }

  function Policy(allowed: seq<bv32>, call: Syscall): Verdict {
    if call.arch != AUDIT_ARCH_X86_64 then KillProcess
    else if call.nr & X32_BIT != 0 then Errno(EPERM)
    else if call.nr == SYS_CLONE3 then Errno(ENOSYS)
    else if Permitted(allowed, call) then Allow
    else Errno(EPERM)
  }

  // ---------------------------------------------------------------------------
  // Equivalence
  // ---------------------------------------------------------------------------

  /** `block` sits in `code` at position `b`. */
  ghost predicate At(code: seq<Instr>, b: nat, block: seq<Instr>) {
    b + |block| <= |code| && code[b..b + |block|] == block
  }

  lemma AtSplit(code: seq<Instr>, b: nat, first: seq<Instr>, second: seq<Instr>)
    requires At(code, b, first + second)
    ensures At(code, b, first) && At(code, b + |first|, second)
  {
    assert code[b..b + |first|] == (first + second)[..|first|];
    assert code[b + |first|..b + |first| + |second|] == (first + second)[|first|..];
  }

  lemma AtIndex(code: seq<Instr>, b: nat, block: seq<Instr>, i: nat)
    requires At(code, b, block) && i < |block|
    ensures code[b + i] == block[i]
  {
    assert code[b..b + |block|][i] == code[b + i];
  }

  /** Checking both halves of a flag word is checking the 64-bit word. */
  lemma CloneFlagsBothHalves(flags: bv64)
    ensures (High(flags) == 0 && Low(flags) & !CLONE_FLAGS == 0) <==> OnlyPermittedFlags(flags)
  {
  }

  // One step of each shape the blocks are made of.

  lemma MatchStep(code: seq<Instr>, pc: nat, nr: bv32, skip: nat, acc: bv32, call: Syscall)
    requires pc < |code| && code[pc] == JumpEq(nr, 0, skip)
    ensures Run(code, pc, acc, call) == Run(code, if acc == nr then pc + 1 else pc + 1 + skip, acc, call)
  {
  }

  lemma JumpStep(code: seq<Instr>, pc: nat, k: bv32, ifTrue: nat, ifFalse: nat, acc: bv32, call: Syscall)
    requires pc < |code| && code[pc] == JumpEq(k, ifTrue, ifFalse)
    ensures Run(code, pc, acc, call) == Run(code, pc + 1 + (if acc == k then ifTrue else ifFalse), acc, call)
  {
  }

  lemma LoadStep(code: seq<Instr>, pc: nat, word: bv32, acc: bv32, call: Syscall)
    requires pc < |code| && code[pc].LoadWord? && Word(call, code[pc].offset) == Some(word)
    ensures Run(code, pc, acc, call) == Run(code, pc + 1, word, call)
  {
  }

  lemma MaskStep(code: seq<Instr>, pc: nat, k: bv32, acc: bv32, call: Syscall)
    requires pc < |code| && code[pc] == AndConst(k)
    ensures Run(code, pc, acc, call) == Run(code, pc + 1, acc & k, call)
  {
  }

  lemma RequireStep(code: seq<Instr>, pc: nat, k: bv32, acc: bv32, call: Syscall)
    requires pc + 1 < |code| && code[pc] == JumpEq(k, 1, 0) && code[pc + 1] == Ret(Errno(EPERM))
    ensures Run(code, pc, acc, call) ==
            if acc == k then Run(code, pc + 2, acc, call) else Some(ActionWord(Errno(EPERM)))
  {
    if acc != k {
      assert Run(code, pc + 1, acc, call) == Some(ActionWord(Errno(EPERM)));
    }
  }

  lemma RejectSetStep(code: seq<Instr>, pc: nat, k: bv32, acc: bv32, call: Syscall)
    requires pc + 1 < |code| && code[pc] == JumpSet(k, 0, 1) && code[pc + 1] == Ret(Errno(EPERM))
    ensures Run(code, pc, acc, call) ==
            if acc & k == 0 then Run(code, pc + 2, acc, call) else Some(ActionWord(Errno(EPERM)))
  {
    if acc & k != 0 {
      assert Run(code, pc + 1, acc, call) == Some(ActionWord(Errno(EPERM)));
    }
  }

  lemma ReturnStep(code: seq<Instr>, pc: nat, v: Verdict, acc: bv32, call: Syscall)
    requires pc < |code| && code[pc] == Ret(v)
    ensures Run(code, pc, acc, call) == Some(ActionWord(v))
  {
  }

  /** A ladder of equality tests that all jump to the final allow. */
  function Ladder(options: seq<bv32>): (code: seq<Instr>)
    ensures |code| == |options| + 2
  {
    if options == [] then [Ret(Errno(EPERM)), Ret(Allow)]
    else [JumpEq(options[0], |options|, 0)] + Ladder(options[1..])
  }

  lemma {:induction false} LadderAllows(options: seq<bv32>)
    ensures Ladder(options)[|options| + 1] == Ret(Allow)
  {
    if options != [] {
      LadderAllows(options[1..]);
    }
  }

  /** A ladder decides membership. */
  lemma {:induction false} LadderRuns(code: seq<Instr>, b: nat, options: seq<bv32>, acc: bv32, call: Syscall)
    requires At(code, b, Ladder(options))
    ensures Run(code, b, acc, call) ==
            Some(ActionWord(if acc in options then Allow else Errno(EPERM)))
    decreases |options|
  {
    hide Run, ActionWord;
    AtIndex(code, b, Ladder(options), 0);
    if options == [] {
      ReturnStep(code, b, Errno(EPERM), acc, call);
    } else {
      AtIndex(code, b, Ladder(options), |options| + 1);
      LadderAllows(options);
      AtSplit(code, b, [JumpEq(options[0], |options|, 0)], Ladder(options[1..]));
      JumpStep(code, b, options[0], |options|, 0, acc, call);
      LadderRuns(code, b + 1, options[1..], acc, call);
      if acc == options[0] {
        ReturnStep(code, b + |options| + 1, Allow, acc, call);
      }
    }
  }

  lemma ArchRuns(code: seq<Instr>, b: nat, acc: bv32, call: Syscall)
    requires At(code, b, ArchBlock())
    ensures Run(code, b, acc, call) ==
            if call.arch == AUDIT_ARCH_X86_64 then Run(code, b + 4, call.nr, call) else Some(ActionWord(KillProcess))
  {
    forall i: nat | i < 4 ensures code[b + i] == ArchBlock()[i] { AtIndex(code, b, ArchBlock(), i); }
    LoadStep(code, b, call.arch, acc, call);
    if call.arch == AUDIT_ARCH_X86_64 {
      LoadStep(code, b + 3, call.nr, call.arch, call);
    } else {
      ReturnStep(code, b + 2, KillProcess, call.arch, call);
    }
  }

  lemma X32Runs(code: seq<Instr>, b: nat, call: Syscall)
    requires At(code, b, X32Block())
    ensures Run(code, b, call.nr, call) ==
            if call.nr & X32_BIT != 0 then Some(ActionWord(Errno(EPERM))) else Run(code, b + 2, call.nr, call)
  {
    AtIndex(code, b, X32Block(), 0);
    AtIndex(code, b, X32Block(), 1);
    RejectSetStep(code, b, X32_BIT, call.nr, call);
  }

  lemma Clone3Runs(code: seq<Instr>, b: nat, call: Syscall)
    requires At(code, b, Clone3Block())
    ensures Run(code, b, call.nr, call) ==
            if call.nr == SYS_CLONE3 then Some(ActionWord(Errno(ENOSYS))) else Run(code, b + 2, call.nr, call)
  {
    AtIndex(code, b, Clone3Block(), 0);
    AtIndex(code, b, Clone3Block(), 1);
    MatchStep(code, b, SYS_CLONE3, 1, call.nr, call);
    ReturnStep(code, b + 1, Errno(ENOSYS), call.nr, call);
  }

  lemma CloneLayout(code: seq<Instr>, b: nat)
    requires At(code, b, CloneBlock())
    ensures b + 8 <= |code|
    ensures code[b] == JumpEq(SYS_CLONE, 0, 7) && code[b + 1] == LoadWord(20) && code[b + 2] == JumpEq(0, 1, 0)
    ensures code[b + 3] == Ret(Errno(EPERM)) && code[b + 4] == LoadWord(16)
    ensures code[b + 5] == JumpSet(!CLONE_FLAGS, 0, 1) && code[b + 6] == Ret(Errno(EPERM)) && code[b + 7] == Ret(Allow)
  {
    forall i: nat | i < 8 ensures code[b + i] == CloneBlock()[i] { AtIndex(code, b, CloneBlock(), i); }
  }

  lemma CloneRuns(code: seq<Instr>, b: nat, call: Syscall)
    requires At(code, b, CloneBlock())
    ensures Run(code, b, call.nr, call) ==
            if call.nr != SYS_CLONE then Run(code, b + 8, call.nr, call)
            else Some(ActionWord(if OnlyPermittedFlags(call.arg0) then Allow else Errno(EPERM)))
  {
    hide Run, OnlyPermittedFlags, ActionWord, At, CloneBlock;
    CloneFlagsBothHalves(call.arg0);
    CloneLayout(code, b);
    MatchStep(code, b, SYS_CLONE, 7, call.nr, call);
    var low, high := Low(call.arg0), High(call.arg0);
    LoadStep(code, b + 1, high, call.nr, call);
    RequireStep(code, b + 2, 0, high, call);
    LoadStep(code, b + 4, low, high, call);
    RejectSetStep(code, b + 5, !CLONE_FLAGS, low, call);
    ReturnStep(code, b + 7, Allow, low, call);
  }

  /** A guarded call whose argument word must be one of `options`. */
  function OneOfBlock(nr: bv32, offset: nat, options: seq<bv32>): seq<Instr> {
    [JumpEq(nr, 0, |options| + 3), LoadWord(offset)] + Ladder(options)
  }

  lemma OneOfRuns(code: seq<Instr>, b: nat, nr: bv32, offset: nat, options: seq<bv32>, word: bv32, call: Syscall)
    requires At(code, b, OneOfBlock(nr, offset, options))
    requires Word(call, offset) == Some(word)
    ensures Run(code, b, call.nr, call) ==
            if call.nr != nr then Run(code, b + |options| + 4, call.nr, call)
            else Some(ActionWord(if word in options then Allow else Errno(EPERM)))
  {
    AtIndex(code, b, OneOfBlock(nr, offset, options), 0);
    AtIndex(code, b, OneOfBlock(nr, offset, options), 1);
    AtSplit(code, b, [JumpEq(nr, 0, |options| + 3), LoadWord(offset)], Ladder(options));
    MatchStep(code, b, nr, |options| + 3, call.nr, call);
    LoadStep(code, b + 1, word, call.nr, call);
    LadderRuns(code, b + 2, options, word, call);
  }

  lemma OneOfBlocks()
    ensures IoctlBlock() == OneOfBlock(SYS_IOCTL, 24, [FIONBIO, FIONREAD])
    ensures PrctlBlock() == OneOfBlock(SYS_PRCTL, 16, [PR_SET_NAME, PR_GET_NAME])
    ensures PrlimitBlock() == OneOfBlock(SYS_PRLIMIT64, 16, [0])
    ensures FcntlBlock() ==
            OneOfBlock(SYS_FCNTL, 24, [F_GETFD, F_SETFD, F_GETFL, F_SETFL, F_DUPFD, F_DUPFD_CLOEXEC])
  {
    LadderUnfold([FIONBIO, FIONREAD]);
    LadderUnfold([PR_SET_NAME, PR_GET_NAME]);
    LadderUnfold([0]);
    LadderUnfold([F_GETFD, F_SETFD, F_GETFL, F_SETFL, F_DUPFD, F_DUPFD_CLOEXEC]);
  }

  /** The ladder, position by position. */
  lemma {:induction false} LadderUnfold(options: seq<bv32>)
    ensures forall i :: 0 <= i < |options| ==> Ladder(options)[i] == JumpEq(options[i], |options| - i, 0)
    ensures Ladder(options)[|options|] == Ret(Errno(EPERM)) && Ladder(options)[|options| + 1] == Ret(Allow)
  {
    if options != [] {
      LadderUnfold(options[1..]);
    }
  }

  /** The type and protocol tests of a socket pair. */
  lemma PairTypeRuns(code: seq<Instr>, pc: nat, acc: bv32, kind: bv32, protocol: bv32, call: Syscall)
    requires pc + 8 <= |code| && Word(call, 24) == Some(kind) && Word(call, 32) == Some(protocol)
    requires code[pc] == LoadWord(24) && code[pc + 1] == AndConst(!(SOCK_CLOEXEC | SOCK_NONBLOCK))
    requires code[pc + 2] == JumpEq(SOCK_STREAM, 1, 0) && code[pc + 3] == Ret(Errno(EPERM))
    requires code[pc + 4] == LoadWord(32) && code[pc + 5] == JumpEq(0, 1, 0)
    requires code[pc + 6] == Ret(Errno(EPERM)) && code[pc + 7] == Ret(Allow)
    ensures Run(code, pc, acc, call) ==
            if StreamKind(kind) && protocol == 0 then Some(ActionWord(Allow)) else Some(ActionWord(Errno(EPERM)))
  {
    hide Run, ActionWord, Low, High;
    var masked := kind & !(SOCK_CLOEXEC | SOCK_NONBLOCK);
    LoadStep(code, pc, kind, acc, call);
    MaskStep(code, pc + 1, !(SOCK_CLOEXEC | SOCK_NONBLOCK), kind, call);
    RequireStep(code, pc + 2, SOCK_STREAM, masked, call);
    LoadStep(code, pc + 4, protocol, masked, call);
    RequireStep(code, pc + 5, 0, protocol, call);
    ReturnStep(code, pc + 7, Allow, protocol, call);
  }

  lemma SocketpairRuns(code: seq<Instr>, b: nat, call: Syscall)
    requires At(code, b, SocketpairBlock())
    ensures Run(code, b, call.nr, call) ==
            if call.nr != SYS_SOCKETPAIR then Run(code, b + 12, call.nr, call)
            else if PermittedPair(Low(call.arg0), Low(call.arg1), Low(call.arg2))
            then Some(ActionWord(Allow)) else Some(ActionWord(Errno(EPERM)))
  {
    hide Run, Low, High, ActionWord, SocketpairBlock, At, StreamKind;
    var family := Low(call.arg0);
    SocketpairLayout(code, b);
    MatchStep(code, b, SYS_SOCKETPAIR, 11, call.nr, call);
    LoadStep(code, b + 1, family, call.nr, call);
    RequireStep(code, b + 2, AF_UNIX, family, call);
    PairTypeRuns(code, b + 4, family, Low(call.arg1), Low(call.arg2), call);
  }

  lemma SocketpairLayout(code: seq<Instr>, b: nat)
    requires At(code, b, SocketpairBlock())
    ensures b + 12 <= |code|
    ensures code[b] == JumpEq(SYS_SOCKETPAIR, 0, 11) && code[b + 1] == LoadWord(16)
    ensures code[b + 2] == JumpEq(AF_UNIX, 1, 0) && code[b + 3] == Ret(Errno(EPERM)) && code[b + 4] == LoadWord(24)
    ensures code[b + 5] == AndConst(!(SOCK_CLOEXEC | SOCK_NONBLOCK)) && code[b + 6] == JumpEq(SOCK_STREAM, 1, 0)
    ensures code[b + 7] == Ret(Errno(EPERM)) && code[b + 8] == LoadWord(32) && code[b + 9] == JumpEq(0, 1, 0)
    ensures code[b + 10] == Ret(Errno(EPERM)) && code[b + 11] == Ret(Allow)
  {
    forall i: nat | i < 12 ensures code[b + i] == SocketpairBlock()[i] { AtIndex(code, b, SocketpairBlock(), i); }
  }

  /** The ALLOW macro compiles list membership, whatever the list. */
  lemma {:induction false} AllowRuns(code: seq<Instr>, b: nat, allowed: seq<bv32>, call: Syscall)
    requires At(code, b, AllowBlock(allowed) + [Ret(Errno(EPERM))])
    ensures Run(code, b, call.nr, call) == Some(ActionWord(if call.nr in allowed then Allow else Errno(EPERM)))
    decreases |allowed|
  {
    AtIndex(code, b, AllowBlock(allowed) + [Ret(Errno(EPERM))], 0);
    if allowed == [] {
      ReturnStep(code, b, Errno(EPERM), call.nr, call);
    } else {
      var pair := [JumpEq(allowed[0], 0, 1), Ret(Allow)];
      var rest := AllowBlock(allowed[1..]) + [Ret(Errno(EPERM))];
      assert AllowBlock(allowed) + [Ret(Errno(EPERM))] == pair + rest;
      AtSplit(code, b, pair, rest);
      AtIndex(code, b, pair, 1);
      MatchStep(code, b, allowed[0], 1, call.nr, call);
      ReturnStep(code, b + 1, Allow, call.nr, call);
      AllowRuns(code, b + 2, allowed[1..], call);
    }
  }

  lemma IoctlRuns(code: seq<Instr>, b: nat, call: Syscall)
    requires At(code, b, IoctlBlock())
    ensures Run(code, b, call.nr, call) ==
            if call.nr != SYS_IOCTL then Run(code, b + 6, call.nr, call)
            else Some(ActionWord(if Low(call.arg1) in {FIONBIO, FIONREAD} then Allow else Errno(EPERM)))
  {
    hide Run, Low;
    OneOfBlocks();
    OneOfRuns(code, b, SYS_IOCTL, 24, [FIONBIO, FIONREAD], Low(call.arg1), call);
  }

  lemma FcntlRuns(code: seq<Instr>, b: nat, call: Syscall)
    requires At(code, b, FcntlBlock())
    ensures Run(code, b, call.nr, call) ==
            if call.nr != SYS_FCNTL then Run(code, b + 10, call.nr, call)
            else Some(ActionWord(if Low(call.arg1) in {F_DUPFD, F_GETFD, F_SETFD, F_GETFL, F_SETFL, F_DUPFD_CLOEXEC} then Allow else Errno(EPERM)))
  {
    hide Run, Low;
    OneOfBlocks();
    OneOfRuns(code, b, SYS_FCNTL, 24, [F_GETFD, F_SETFD, F_GETFL, F_SETFL, F_DUPFD, F_DUPFD_CLOEXEC], Low(call.arg1), call);
  }

  lemma PrlimitRuns(code: seq<Instr>, b: nat, call: Syscall)
    requires At(code, b, PrlimitBlock())
    ensures Run(code, b, call.nr, call) ==
            if call.nr != SYS_PRLIMIT64 then Run(code, b + 5, call.nr, call)
            else Some(ActionWord(if Low(call.arg0) == 0 then Allow else Errno(EPERM)))
  {
    hide Run, Low;
    OneOfBlocks();
    OneOfRuns(code, b, SYS_PRLIMIT64, 16, [0], Low(call.arg0), call);
  }

  lemma PrctlRuns(code: seq<Instr>, b: nat, call: Syscall)
    requires At(code, b, PrctlBlock())
    ensures Run(code, b, call.nr, call) ==
            if call.nr != SYS_PRCTL then Run(code, b + 6, call.nr, call)
            else Some(ActionWord(if Low(call.arg0) in {PR_SET_NAME, PR_GET_NAME} then Allow else Errno(EPERM)))
  {
    hide Run, Low;
    OneOfBlocks();
    OneOfRuns(code, b, SYS_PRCTL, 16, [PR_SET_NAME, PR_GET_NAME], Low(call.arg0), call);
  }

  lemma LaterGuardsRun(code: seq<Instr>, b: nat, allowed: seq<bv32>, call: Syscall)
    requires At(code, b, LaterChecks(allowed))
    requires call.nr !in {SYS_CLONE, SYS_IOCTL, SYS_SOCKETPAIR}
    ensures Run(code, b, call.nr, call) == Some(ActionWord(if Permitted(allowed, call) then Allow else Errno(EPERM)))
  {
    hide Run, FcntlBlock, PrlimitBlock, PrctlBlock, AllowBlock, Ladder, OneOfBlock, Low, High, ActionWord;
    var allowPart := AllowBlock(allowed) + [Ret(Errno(EPERM))];
    AtSplit(code, b, FcntlBlock(), PrlimitBlock() + (PrctlBlock() + allowPart));
    AtSplit(code, b + 10, PrlimitBlock(), PrctlBlock() + allowPart);
    AtSplit(code, b + 15, PrctlBlock(), allowPart);
    hide At;
    FcntlRuns(code, b, call);
    PrlimitRuns(code, b + 10, call);
    PrctlRuns(code, b + 15, call);
    AllowRuns(code, b + 21, allowed, call);
  }

  lemma GuardLayout(code: seq<Instr>, b: nat, allowed: seq<bv32>)
    requires At(code, b, GuardChecks(allowed))
    ensures At(code, b, CloneBlock()) && At(code, b + 8, IoctlBlock()) && At(code, b + 14, SocketpairBlock())
    ensures At(code, b + 26, LaterChecks(allowed))
  {
    hide CloneBlock, IoctlBlock, SocketpairBlock, LaterChecks;
    AtSplit(code, b, CloneBlock(), IoctlBlock() + (SocketpairBlock() + LaterChecks(allowed)));
    AtSplit(code, b + 8, IoctlBlock(), SocketpairBlock() + LaterChecks(allowed));
    AtSplit(code, b + 14, SocketpairBlock(), LaterChecks(allowed));
  }

  lemma PermittedByNumber(allowed: seq<bv32>, call: Syscall)
    ensures call.nr == SYS_CLONE ==> (Permitted(allowed, call) <==> OnlyPermittedFlags(call.arg0))
    ensures call.nr == SYS_IOCTL ==> (Permitted(allowed, call) <==> Low(call.arg1) in {FIONBIO, FIONREAD})
    ensures call.nr == SYS_SOCKETPAIR ==>
              (Permitted(allowed, call) <==> PermittedPair(Low(call.arg0), Low(call.arg1), Low(call.arg2)))
  {
    hide Low, OnlyPermittedFlags, PermittedPair;
  }

  /** From the first guarded block on, the table decides `Permitted`. */
  lemma GuardedRuns(code: seq<Instr>, b: nat, allowed: seq<bv32>, call: Syscall)
    requires At(code, b, GuardChecks(allowed))
    ensures Run(code, b, call.nr, call) == Some(ActionWord(if Permitted(allowed, call) then Allow else Errno(EPERM)))
  {
    hide Run, GuardChecks, LaterChecks, CloneBlock, IoctlBlock, SocketpairBlock, Low, High, ActionWord, At,
         OnlyPermittedFlags, PermittedPair, Permitted;
    PermittedByNumber(allowed, call);
    GuardLayout(code, b, allowed);
    CloneRuns(code, b, call);
    IoctlRuns(code, b + 8, call);
    SocketpairRuns(code, b + 14, call);
    if call.nr !in {SYS_CLONE, SYS_IOCTL, SYS_SOCKETPAIR} {
      LaterGuardsRun(code, b + 26, allowed, call);
    }
  }

  /** For every call and every allow list, the jump-coded table returns, from inside the
      table, the action word of the policy's verdict. */
  lemma TableDecidesPolicy(allowed: seq<bv32>, call: Syscall)
    ensures Run(Table(allowed), 0, 0, call) == Some(ActionWord(Policy(allowed, call)))
  {
    hide Run, ArchBlock, X32Block, Clone3Block, GuardChecks, Permitted, ActionWord;
    var code := Table(allowed);
    assert At(code, 0, ArchBlock() + NumberChecks(allowed));
    AtSplit(code, 0, ArchBlock(), NumberChecks(allowed));
    AtSplit(code, 4, X32Block(), Clone3Block() + GuardChecks(allowed));
    AtSplit(code, 6, Clone3Block(), GuardChecks(allowed));
    ArchRuns(code, 0, 0, call);
    X32Runs(code, 4, call);
    Clone3Runs(code, 6, call);
    GuardedRuns(code, 8, allowed, call);
  }

  /** The action words keep the verdicts of the policy apart. */
  lemma VerdictsDistinct(allowed: seq<bv32>, call: Syscall, v: Verdict)
    requires v in {Allow, KillProcess, Errno(EPERM), Errno(ENOSYS)}
    ensures Run(Table(allowed), 0, 0, call) == Some(ActionWord(v)) <==> Policy(allowed, call) == v
  {
    TableDecidesPolicy(allowed, call);
    assert Policy(allowed, call) in {Allow, KillProcess, Errno(EPERM), Errno(ENOSYS)};
  }

  predicate PlainClone(flags: bv64) {
    flags & 0xFFFF_FFFF_FEC2_B000 == 0
  }

  predicate ReadyRequest(x: bv64) {
    x & 0xFFFF_FFFF == 0x5421 || x & 0xFFFF_FFFF == 0x541B
  }

  predicate UnixStreamPair(family: bv64, kind: bv64, protocol: bv64) {
    family & 0xFFFF_FFFF == 1 && kind & 0xFFF7_F7FF == 1 && protocol & 0xFFFF_FFFF == 0
  }

  /** Commands 0 to 4 and 1030. */
  predicate DescriptorCommand(x: bv64) {
    x & 0xFFFF_FFFF <= 4 || x & 0xFFFF_FFFF == 1030
  }

  predicate NameOption(x: bv64) {
    x & 0xFFFF_FFFF == 15 || x & 0xFFFF_FFFF == 16
  }

  predicate OwnProcess(x: bv64) {
    x & 0xFFFF_FFFF == 0
  }

  /** What a native call must satisfy to pass, in the numbers of the x86-64 system call interface. */
  predicate Passes(allowed: seq<bv32>, call: Syscall) {
    if call.nr == 56 then PlainClone(call.arg0)
    else if call.nr == 16 then ReadyRequest(call.arg1)
    else if call.nr == 53 then UnixStreamPair(call.arg0, call.arg1, call.arg2)
    else if call.nr == 72 then DescriptorCommand(call.arg1)
    else if call.nr == 302 then OwnProcess(call.arg0)
    else if call.nr == 157 then NameOption(call.arg0)
    else call.nr in allowed
  }

  lemma CloneMask(flags: bv64)
    ensures OnlyPermittedFlags(flags) <==> PlainClone(flags)
  {
    assert !(CLONE_FLAGS as bv64) == 0xFFFF_FFFF_FEC2_B000;
  }

  lemma KindMask(x: bv64)
    ensures StreamKind(Low(x)) <==> x & 0xFFF7_F7FF == 1
  {
    assert !(SOCK_CLOEXEC | SOCK_NONBLOCK) == 0xFFF7_F7FF;
  }

  lemma LowWord(x: bv64)
    ensures Low(x) as bv64 == x & 0xFFFF_FFFF
  {
  }

  lemma PairMask(family: bv64, kind: bv64, protocol: bv64)
    ensures PermittedPair(Low(family), Low(kind), Low(protocol)) <==> UnixStreamPair(family, kind, protocol)
  {
    KindMask(kind);
    LowWord(family);
    LowWord(protocol);
    hide Low, StreamKind;
  }

  lemma RequestMask(x: bv64)
    ensures Low(x) in {FIONBIO, FIONREAD} <==> ReadyRequest(x)
  {
    LowWord(x);
    hide Low;
  }

  lemma CommandMask(x: bv64)
    ensures Low(x) in {F_DUPFD, F_GETFD, F_SETFD, F_GETFL, F_SETFL, F_DUPFD_CLOEXEC} <==> DescriptorCommand(x)
  {
    LowWord(x);
    hide Low;
    var word := Low(x);
    assert word <= 4 <==> word in {0, 1, 2, 3, 4};
  }

  lemma OptionMask(x: bv64)
    ensures Low(x) in {PR_SET_NAME, PR_GET_NAME} <==> NameOption(x)
    ensures Low(x) == 0 <==> OwnProcess(x)
  {
    LowWord(x);
    hide Low;
  }

  lemma PermittedPasses(allowed: seq<bv32>, call: Syscall)
    ensures Permitted(allowed, call) <==> Passes(allowed, call)
  {
    hide Low, PlainClone, ReadyRequest, UnixStreamPair, DescriptorCommand, NameOption, OwnProcess, OnlyPermittedFlags,
         PermittedPair;
    CloneMask(call.arg0);
    RequestMask(call.arg1);
    PairMask(call.arg0, call.arg1, call.arg2);
    CommandMask(call.arg1);
    OptionMask(call.arg0);
  }

  /** The action words the kernel acts on, in numbers: kill a foreign architecture, ENOSYS for clone3,
      allow exactly what passes, EPERM for everything else. */
  lemma TableVerdicts(allowed: seq<bv32>, call: Syscall)
    ensures Run(Table(allowed), 0, 0, call).Some?
    ensures var word := Run(Table(allowed), 0, 0, call).value;
            var native := call.arch == 0xC000_003E && call.nr & 0x4000_0000 == 0;
            && (word == 0x8000_0000 <==> call.arch != 0xC000_003E)
            && (word == 0x0005_0026 <==> native && call.nr == 435)
            && (word == 0x7FFF_0000 <==> native && call.nr != 435 && Passes(allowed, call))
            && word in {0x8000_0000, 0x0005_0026, 0x7FFF_0000, 0x0005_0001}
  {
    hide Run, Table, Permitted, Passes;
    TableDecidesPolicy(allowed, call);
    PermittedPasses(allowed, call);
    assert (0x0005_0000 as bv32) | 38 == 0x0005_0026 && (0x0005_0000 as bv32) | 1 == 0x0005_0001;
  }

  /** The launcher's own allow list, by x86-64 system call number. */
  function LauncherAllowList(): seq<bv32> {
    [
      0, 1, 19, 20, 17, 18, 3, 436, 8, 32, 33, 292, 7, 271, 23, 270, 213, 291, 233, 232,
      281, 441, 290, 22, 293, 2, 257, 437, 85, 55, 51, 52, 48, 21, 269, 439, 5, 4, 6, 262,
      332, 137, 138, 78, 217, 89, 267, 76, 77, 74, 75, 87, 263, 83, 258, 84, 82, 264, 316, 86,
      265, 88, 266, 80, 81, 79, 95, 9, 10, 11, 25, 28, 12, 13, 14, 15, 130, 128, 131, 62,
      200, 234, 61, 247, 39, 110, 186, 111, 121, 124, 109, 112, 57, 58, 59, 60, 231, 202, 218, 273,
      334, 158, 228, 229, 230, 35, 96, 201, 100, 98, 97, 160, 24, 204, 143, 145, 147, 146, 309, 318,
      63, 99, 102, 107, 104, 108, 115
    ]
  }

  /** The installed filter decides the policy for the launcher's own list. */
  lemma LauncherFilter(call: Syscall)
    ensures Run(Table(LauncherAllowList()), 0, 0, call) == Some(ActionWord(Policy(LauncherAllowList(), call)))
  {
    hide *;
    TableDecidesPolicy(LauncherAllowList(), call);
  }

  /** Of the unguarded native calls the launcher allows exactly those listed; a guarded call passes by its arguments alone. */
  lemma LauncherAllows(call: Syscall)
    ensures Run(Table(LauncherAllowList()), 0, 0, call) == Some(0x7FFF_0000) <==>
            (call.arch == 0xC000_003E && call.nr & 0x4000_0000 == 0 && call.nr != 435 && Passes(LauncherAllowList(), call))
  {
    hide *;
    TableVerdicts(LauncherAllowList(), call);
  }
}
