/**
  The seccomp filter that native/sandbox-runner installs in the sandboxed child:
  a deny list compiled to classic BPF with relative jumps, and an interpreter for
  the fragment of classic BPF that the compiler emits.
 */
module Seccomp {

  type u8 = x: int | 0 <= x < 0x100
  type u16 = x: int | 0 <= x < 0x1_0000
  type u32 = x: int | 0 <= x < 0x1_0000_0000

  // Instruction codes. Every bitwise-or in the source combines disjoint bit
  // fields, so it is written as a sum here.
  const BPF_LD: u16 := 0x00
  const BPF_W: u16 := 0x00
  const BPF_ABS: u16 := 0x20
  const BPF_JMP: u16 := 0x05
  const BPF_JEQ: u16 := 0x10
  const BPF_K: u16 := 0x00
  const BPF_RET: u16 := 0x06
  const LOAD_WORD: u16 := BPF_LD + BPF_W + BPF_ABS
  const JUMP_EQ: u16 := BPF_JMP + BPF_JEQ + BPF_K
  const RETURN: u16 := BPF_RET + BPF_K

  const SECCOMP_RET_ALLOW: u32 := 0x7fff_0000
  const SECCOMP_RET_ERRNO: u32 := 0x0005_0000
  const EPERM: u32 := 1
  const DENY: u32 := SECCOMP_RET_ERRNO + EPERM
  const AUDIT_ARCH_X86_64: u32 := 0xc000_003e

  // libc::sock_filter
  datatype Insn = Insn(code: u16, jt: u8, jf: u8, k: u32)

  function Stmt(code: u16, k: u32): Insn {
    Insn(code, 0, 0, k)
  }

  function JumpEq(k: u32, jt: u8, jf: u8): Insn {
    Insn(JUMP_EQ, jt, jf, k)
  }

  // ---------------------------------------------------------------- interpreter

  // struct seccomp_data as sixteen 32-bit words: word 0 is the syscall number,
  // word 1 (byte offset 4) is the architecture.
  type SeccompData = d: seq<u32> | |d| == 16 witness seq(16, _ => 0)

  // What the filter does with one system call: the verdict, the number of
  // instructions executed, or a fault (a bad instruction, load or jump).
  datatype Outcome = Verdict(value: u32, steps: nat) | Fault

  function Tick(o: Outcome): Outcome {
    match o
    case Verdict(v, n) => Verdict(v, n + 1)
    case Fault => Fault
  }

  // Classic BPF from position pc with accumulator a. Jump offsets are relative to
  // the next instruction and unsigned, so pc only grows.
  function Exec(prog: seq<Insn>, data: SeccompData, pc: nat, a: u32): Outcome
    decreases |prog| - pc
  {
    if pc >= |prog| then Fault
    else
      var i := prog[pc];
      if i.code == LOAD_WORD then
        if i.k % 4 == 0 && i.k < 64 then Tick(Exec(prog, data, pc + 1, data[i.k / 4])) else Fault
      else if i.code == JUMP_EQ then
        Tick(Exec(prog, data, pc + 1 + (if a == i.k then i.jt else i.jf), a))
      else if i.code == RETURN then Verdict(i.k, 1)
      else Fault
  }

  function RunFilter(prog: seq<Insn>, data: SeccompData): Outcome {
    Exec(prog, data, 0, 0)
  }

  // No execution can leave the program: every load is aligned and in range, every jump
  // lands inside the program, the last instruction returns.
  ghost predicate StaticallySafe(prog: seq<Insn>) {
    && prog != []
    && prog[|prog| - 1].code == RETURN
    && forall pc :: 0 <= pc < |prog| ==> InsnAccepted(prog, pc)
  }

  // The check of the kernel on a submitted program, which also bounds its length.
  const BPF_MAXINSNS := 4096

  ghost predicate KernelAccepts(prog: seq<Insn>) {
    |prog| <= BPF_MAXINSNS && StaticallySafe(prog)
  }

  ghost predicate InsnAccepted(prog: seq<Insn>, pc: nat)
    requires pc < |prog|
  {
    var i := prog[pc];
    || (i.code == LOAD_WORD && i.k % 4 == 0 && i.k < 64)
    || (i.code == JUMP_EQ && pc + 1 + i.jt < |prog| && pc + 1 + i.jf < |prog|)
    || i.code == RETURN
  }

  // ------------------------------------------------------------------- compiler

  function Header(): seq<Insn> {
    [Stmt(LOAD_WORD, 4), JumpEq(AUDIT_ARCH_X86_64, 1, 0), Stmt(RETURN, DENY), Stmt(LOAD_WORD, 0)]
  }

  function Checks(denied: seq<u32>): seq<Insn> {
    if denied == [] then []
    else Checks(denied[..|denied| - 1]) + [JumpEq(denied[|denied| - 1], 0, 1), Stmt(RETURN, DENY)]
  }

  function Compile(denied: seq<u32>): seq<Insn> {
    Header() + Checks(denied) + [Stmt(RETURN, SECCOMP_RET_ALLOW)]
  }

  // The filter construction of apply_seccomp_filter, for any deny list.
  method BuildFilter(denied: seq<u32>) returns (filter: seq<Insn>)
    ensures filter == Compile(denied)
    ensures |filter| == 2 * |denied| + 5
    ensures StaticallySafe(filter)
    ensures KernelAccepts(Submitted(filter)) <==> |denied| <= 2045
    ensures |denied| <= 2045 ==> Submitted(filter) == filter
    ensures forall data: SeccompData :: RunFilter(filter, data).Verdict?
                                     && RunFilter(filter, data).value == Policy(denied, data)
  {
    filter := [];
    filter := filter + [Stmt(LOAD_WORD, 4)];
    filter := filter + [JumpEq(AUDIT_ARCH_X86_64, 1, 0)];
    filter := filter + [Stmt(RETURN, DENY)];
    filter := filter + [Stmt(LOAD_WORD, 0)];
    for n := 0 to |denied|
      invariant filter == Header() + Checks(denied[..n])
    {
      filter := filter + [JumpEq(denied[n], 0, 1)];
      filter := filter + [Stmt(RETURN, DENY)];
      assert denied[..n + 1][..n] == denied[..n];
    }
    assert denied[..|denied|] == denied;
    filter := filter + [Stmt(RETURN, SECCOMP_RET_ALLOW)];
    CompileAt(denied);
    FilterSafe(denied);
    InstalledExactly(denied);
    forall data: SeccompData
      ensures RunFilter(filter, data).Verdict? && RunFilter(filter, data).value == Policy(denied, data)
    {
      FilterCorrect(denied, data);
    }
  }

  // -------------------------------------------------------------------- meaning

  // The policy the filter is for, said without any program.
  function Policy(denied: seq<u32>, data: SeccompData): u32 {
    if data[1] != AUDIT_ARCH_X86_64 || data[0] in denied then DENY else SECCOMP_RET_ALLOW
  }

  // Where each instruction of the compiled program sits.
  lemma {:induction false} ChecksAt(denied: seq<u32>)
    ensures |Checks(denied)| == 2 * |denied|
    ensures forall i :: 0 <= i < |denied| ==> Checks(denied)[2 * i] == JumpEq(denied[i], 0, 1)
    ensures forall i :: 0 <= i < |denied| ==> Checks(denied)[2 * i + 1] == Stmt(RETURN, DENY)
  {
    if denied != [] {
      ChecksAt(denied[..|denied| - 1]);
    }
  }

  lemma CompileAt(denied: seq<u32>)
    ensures |Compile(denied)| == 2 * |denied| + 5
    ensures Compile(denied)[..4] == Header()
    ensures forall i :: 0 <= i < |denied| ==> Compile(denied)[4 + 2 * i] == JumpEq(denied[i], 0, 1)
    ensures forall i :: 0 <= i < |denied| ==> Compile(denied)[5 + 2 * i] == Stmt(RETURN, DENY)
    ensures Compile(denied)[4 + 2 * |denied|] == Stmt(RETURN, SECCOMP_RET_ALLOW)
  {
    ChecksAt(denied);
    forall i | 0 <= i < |denied|
      ensures Compile(denied)[4 + 2 * i] == JumpEq(denied[i], 0, 1)
      ensures Compile(denied)[5 + 2 * i] == Stmt(RETURN, DENY)
    {
      assert Checks(denied)[2 * i] == JumpEq(denied[i], 0, 1);
      assert Checks(denied)[2 * i + 1] == Stmt(RETURN, DENY);
    }
  }

  // All jumps, loads and the final return are in bounds, for every list.
  lemma FilterSafe(denied: seq<u32>)
    ensures StaticallySafe(Compile(denied))
  {
    CompileAt(denied);
    var prog := Compile(denied);
    forall pc | 0 <= pc < |prog| ensures InsnAccepted(prog, pc) {
      if pc < 4 {
        assert prog[pc] == Header()[pc];
      } else if pc < 4 + 2 * |denied| {
        var i := (pc - 4) / 2;
        assert prog[4 + 2 * i] == JumpEq(denied[i], 0, 1) && prog[5 + 2 * i] == Stmt(RETURN, DENY);
        assert pc == 4 + 2 * i || pc == 5 + 2 * i;
      }
    }
  }

  // From the i-th check on, the program decides membership in the rest of the list.
  lemma {:induction false} ChecksDecide(denied: seq<u32>, data: SeccompData, i: nat, nr: u32)
    requires i <= |denied|
    ensures var o := Exec(Compile(denied), data, 4 + 2 * i, nr);
            && o.Verdict?
            && o.value == (if nr in denied[i..] then DENY else SECCOMP_RET_ALLOW)
            && o.steps <= |denied| - i + 1
    decreases |denied| - i
  {
    CompileAt(denied);
    var prog := Compile(denied);
    if i < |denied| {
      ChecksDecide(denied, data, i + 1, nr);
      assert prog[4 + 2 * i] == JumpEq(denied[i], 0, 1);
      assert prog[5 + 2 * i] == Stmt(RETURN, DENY);
      assert denied[i..] == [denied[i]] + denied[i + 1..];
      if nr == denied[i] {
        assert Exec(prog, data, 5 + 2 * i, nr) == Verdict(DENY, 1);
      } else {
        assert 4 + 2 * (i + 1) == 6 + 2 * i;
      }
    }
  }

  // Compiler correctness: for every deny list and every system call the program
  // halts without a fault, within |denied| + 4 instructions, with the policy's verdict.
  lemma FilterCorrect(denied: seq<u32>, data: SeccompData)
    ensures var o := RunFilter(Compile(denied), data);
            && o.Verdict?
            && o.value == Policy(denied, data)
            && o.steps <= |denied| + 4
    ensures RunFilter(Compile(denied), data).value
            == if data[1] != 0xc000_003e || data[0] in denied then 0x0005_0001 else 0x7fff_0000
  {
    CompileAt(denied);
    var prog := Compile(denied);
    assert prog[0] == prog[..4][0] && prog[1] == prog[..4][1] && prog[2] == prog[..4][2] && prog[3] == prog[..4][3];
    ChecksDecide(denied, data, 0, data[0]);
    assert denied[0..] == denied;
    assert Exec(prog, data, 3, data[1]) == Tick(Exec(prog, data, 4, data[0]));
    assert Exec(prog, data, 2, data[1]) == Verdict(DENY, 1);
    assert Exec(prog, data, 0, 0) == Tick(Exec(prog, data, 1, data[1]));
  }

  // ---------------------------------------------------------------- installation

  // The length is handed to the kernel as a u16, so the kernel sees a prefix.
  function Submitted(filter: seq<Insn>): seq<Insn> {
    filter[..|filter| % 0x1_0000]
  }

  // A proper prefix of a compiled program of odd length does not pass the check: it ends
  // in a load or a comparison, or the architecture test jumps out of it.
  lemma PrefixUnsafe(denied: seq<u32>, n: nat)
    requires n % 2 == 1 && n < 2 * |denied| + 5
    ensures |Compile(denied)| == 2 * |denied| + 5 && !StaticallySafe(Compile(denied)[..n])
  {
    CompileAt(denied);
    var prog := Compile(denied);
    var prefix := prog[..n];
    assert prefix[n - 1] == prog[n - 1];
    if n == 1 {
      assert prog[0] == prog[..4][0];
    } else if n == 3 {
      assert prefix[1] == prog[..4][1];
      assert !InsnAccepted(prefix, 1);
    } else {
      var i := (n - 5) / 2;
      assert prog[4 + 2 * i] == JumpEq(denied[i], 0, 1);
    }
  }

  // The kernel accepts what it is handed exactly for lists of at most 2045 entries, and
  // then it was handed the whole filter: a longer list is refused, never truncated.
  lemma InstalledExactly(denied: seq<u32>)
    ensures KernelAccepts(Submitted(Compile(denied))) <==> |denied| <= 2045
    ensures |denied| <= 2045 ==> Submitted(Compile(denied)) == Compile(denied)
  {
    CompileAt(denied);
    FilterSafe(denied);
    var prog := Compile(denied);
    var n := |prog| % 0x1_0000;
    assert prog[..|prog|] == prog;
    if n < |prog| {
      PrefixUnsafe(denied, n);
    }
  }
}
