/**
 The sandbox's seccomp filter (sandbox/seccomp.js): a syscall table is compiled into classic BPF bytes. The
 specification is a machine for that instruction set; `Compile` promises what the machine answers when it runs the
 bytes, for every table, every architecture word and every system call number.
 */
module Seccomp {
  import opened Prelude

  type Word = k: int | 0 <= k < 0x1_0000_0000

  const LD_W_ABS := 0x20
  const JEQ_K := 0x15
  const JGE_K := 0x35
  const RET_K := 0x06
  const RET_ALLOW: Word := 0x7fff0000
  const RET_KILL_PROCESS: Word := 0x80000000
  const RET_ERRNO_EPERM: Word := 0x00050001
  const OFF_NR: Word := 0
  const OFF_ARCH: Word := 4
  const X32_SYSCALL_BIT: Word := 0x40000000

  const AUDIT_ARCH: map<string, Word> := map["x64" := 0xc000003e, "arm64" := 0xc00000b7]

  /** The denied calls of x86-64, by name (asm/unistd_64.h). */
  const X64_SYSCALLS: map<string, Word> := map[
    "ptrace" := 101, "syslog" := 103, "vhangup" := 153, "pivot_root" := 155, "acct" := 163, "mount" := 165,
    "umount2" := 166, "swapon" := 167, "swapoff" := 168, "reboot" := 169, "iopl" := 172, "ioperm" := 173,
    "init_module" := 175, "delete_module" := 176, "quotactl" := 179, "lookup_dcookie" := 212,
    "kexec_load" := 246, "add_key" := 248, "request_key" := 249, "keyctl" := 250, "unshare" := 272,
    "perf_event_open" := 298, "name_to_handle_at" := 303, "open_by_handle_at" := 304, "setns" := 308,
    "process_vm_readv" := 310, "process_vm_writev" := 311, "finit_module" := 313, "kexec_file_load" := 320,
    "bpf" := 321, "userfaultfd" := 323, "io_uring_setup" := 425, "io_uring_enter" := 426,
    "io_uring_register" := 427, "open_tree" := 428, "move_mount" := 429, "fsopen" := 430, "fsconfig" := 431,
    "fsmount" := 432, "fspick" := 433, "mount_setattr" := 442
  ]

  /** The denied calls of arm64, by name (asm-generic/unistd.h). */
  const ARM64_SYSCALLS: map<string, Word> := map[
    "lookup_dcookie" := 18, "umount2" := 39, "mount" := 40, "pivot_root" := 41, "vhangup" := 58,
    "quotactl" := 60, "acct" := 89, "unshare" := 97, "kexec_load" := 104, "init_module" := 105,
    "delete_module" := 106, "syslog" := 116, "ptrace" := 117, "reboot" := 142, "add_key" := 217,
    "request_key" := 218, "keyctl" := 219, "swapon" := 224, "swapoff" := 225, "perf_event_open" := 241,
    "open_by_handle_at" := 265, "name_to_handle_at" := 264, "setns" := 268, "process_vm_readv" := 270,
    "process_vm_writev" := 271, "finit_module" := 273, "bpf" := 280, "userfaultfd" := 282,
    "kexec_file_load" := 294, "io_uring_setup" := 425, "io_uring_enter" := 426, "io_uring_register" := 427,
    "open_tree" := 428, "move_mount" := 429, "fsopen" := 430, "fsconfig" := 431, "fsmount" := 432,
    "fspick" := 433, "mount_setattr" := 442
  ]

  const SYSCALLS: map<string, map<string, Word>> := map["x64" := X64_SYSCALLS, "arm64" := ARM64_SYSCALLS]

  // ---------------------------------------------------------------- the bytes of one instruction

  /** One struct sock_filter: a 16-bit code, two 8-bit relative jumps, a 32-bit constant. */
  datatype Insn = Insn(code: int, jt: Byte, jf: Byte, k: Word)

  /** A JavaScript number as an unsigned 32-bit word (`k >>> 0`). */
  function Unsigned(k: int): Word { k % 0x1_0000_0000 }

  function Pair(lo: Byte, hi: int): int { lo + 0x100 * hi }

  /** struct sock_filter as it lies in memory. */
  type Buffer = b: seq<Byte> | |b| == 8 witness [0, 0, 0, 0, 0, 0, 0, 0]

  /** Reads a little-endian instruction the way the kernel does. */
  function Decode(b: Buffer): Insn {
    Insn(Pair(b[0], b[1]), b[2], b[3], Pair(b[4], Pair(b[5], Pair(b[6], b[7]))))
  }

  /** The eight bytes of an instruction, least significant first. */
  function Encode(i: Insn): Buffer
    requires 0 <= i.code < 0x1_0000
  {
    [i.code % 0x100, i.code / 0x100, i.jt, i.jf, i.k % 0x100, i.k / 0x100 % 0x100, i.k / 0x1_0000 % 0x100,
        i.k / 0x100_0000]
  }

  lemma PairParts(lo: Byte, hi: int)
    ensures Pair(lo, hi) % 0x100 == lo && Pair(lo, hi) / 0x100 == hi
  {
  }

  /** Eight bytes are one instruction in one way only: they can be had back from it. */
  lemma EncodeDecoded(b: Buffer)
    ensures Encode(Decode(b)) == b
  {
    PairParts(b[0], b[1]);
    PairParts(b[4], Pair(b[5], Pair(b[6], b[7])));
    PairParts(b[5], Pair(b[6], b[7]));
    PairParts(b[6], b[7]);
  }

  /** Buffer.concat of a list of buffers. */
  function Concat(buffers: seq<Buffer>): seq<Byte> {
    if buffers == [] then [] else Concat(buffers[..|buffers| - 1]) + buffers[|buffers| - 1]
  }

  /** The program in a stretch of memory. */
  function DecodeAll(b: seq<Byte>): seq<Insn>
    requires |b| % 8 == 0
  {
    if b == [] then [] else DecodeAll(b[..|b| - 8]) + [Decode(b[|b| - 8..])]
  }

  /** The program a list of buffers holds, one instruction each. */
  function DecodeEach(buffers: seq<Buffer>): seq<Insn> {
    if buffers == [] then [] else DecodeEach(buffers[..|buffers| - 1]) + [Decode(buffers[|buffers| - 1])]
  }

  lemma DecodeOneMore(buffers: seq<Buffer>, b: Buffer)
    ensures DecodeEach(buffers + [b]) == DecodeEach(buffers) + [Decode(b)]
  {
    assert (buffers + [b])[..|buffers|] == buffers;
  }

  lemma {:induction false} DecodeConcat(buffers: seq<Buffer>)
    ensures |Concat(buffers)| % 8 == 0 && DecodeAll(Concat(buffers)) == DecodeEach(buffers)
  {
    if buffers != [] {
      var front := buffers[..|buffers| - 1];
      DecodeConcat(front);
      var b := Concat(buffers);
      assert b[..|b| - 8] == Concat(front) && b[|b| - 8..] == buffers[|buffers| - 1];
    }
  }

  // ---------------------------------------------------------------- the machine

  /** struct seccomp_data as sixteen 32-bit words: the call's number, the architecture, then the rest. */
  type Data = d: seq<Word> | |d| == 16 witness seq(16, _ => 0)

  datatype Outcome = Return(action: Word) | Fault

  /** A load the machine carries out: inside the data and on a word boundary. */
  predicate Loadable(k: Word) { k % 4 == 0 && k / 4 < 16 }

  function Exec(p: seq<Insn>, d: Data, a: Word, pc: nat): Outcome
    decreases |p| - pc
  {
    if pc >= |p| then Fault
    else
      var i := p[pc];
      if i.code == RET_K then Return(i.k)
      else if i.code == LD_W_ABS then (if Loadable(i.k) then Exec(p, d, d[i.k / 4], pc + 1) else Fault)
      else if i.code == JEQ_K then Exec(p, d, a, pc + 1 + if a == i.k then i.jt else i.jf)
      else if i.code == JGE_K then Exec(p, d, a, pc + 1 + if a >= i.k then i.jt else i.jf)
      else Fault
  }

  /**
   What a loader checks before it accepts a filter: known codes, loads and both jump targets in range, a RET at the end.
   */
  ghost predicate Checked(p: seq<Insn>) {
    && p != [] && p[|p| - 1].code == RET_K
    && forall pc :: 0 <= pc < |p| ==> CheckedAt(p, pc)
  }

  ghost predicate CheckedAt(p: seq<Insn>, pc: int)
    requires 0 <= pc < |p|
  {
    var i := p[pc];
    || i.code == RET_K
    || (i.code == LD_W_ABS && Loadable(i.k))
    || (i.code in {JEQ_K, JGE_K} && pc + 1 + i.jt < |p| && pc + 1 + i.jf < |p|)
  }

  /** A checked filter answers something from every reachable point: no path runs off its end. */
  lemma {:induction false} CheckedReturns(p: seq<Insn>, d: Data, a: Word, pc: nat)
    requires Checked(p) && pc < |p|
    ensures Exec(p, d, a, pc).Return?
    decreases |p| - pc
  {
    var i := p[pc];
    assert CheckedAt(p, pc);
    if i.code == LD_W_ABS {
      CheckedReturns(p, d, d[i.k / 4], pc + 1);
    } else if i.code == JEQ_K {
      CheckedReturns(p, d, a, pc + 1 + if a == i.k then i.jt else i.jf);
    } else if i.code == JGE_K {
      CheckedReturns(p, d, a, pc + 1 + if a >= i.k then i.jt else i.jf);
    }
  }

  // ---------------------------------------------------------------- the program

  function Denial(test: int, k: Word): seq<Insn> { [Insn(test, 0, 1, k), Insn(RET_K, 0, 0, RET_ERRNO_EPERM)] }

  function Prologue(arch: string, audit: Word): seq<Insn> {
    [Insn(LD_W_ABS, 0, 0, OFF_ARCH), Insn(JEQ_K, 1, 0, audit), Insn(RET_K, 0, 0, RET_KILL_PROCESS),
        Insn(LD_W_ABS, 0, 0, OFF_NR)]
    + if arch == "x64" then Denial(JGE_K, X32_SYSCALL_BIT) else []
  }

  function Rules(nrs: seq<Word>): seq<Insn> {
    if nrs == [] then []
    else Rules(nrs[..|nrs| - 1]) + Denial(JEQ_K, nrs[|nrs| - 1])
  }

  function Program(arch: string, audit: Word, nrs: seq<Word>): seq<Insn> {
    Prologue(arch, audit) + Rules(nrs) + [Insn(RET_K, 0, 0, RET_ALLOW)]
  }

  /** What the filter is for, said without any instruction. */
  function Verdict(arch: string, audit: Word, denied: set<Word>, d: Data): Word {
    if d[1] != audit then RET_KILL_PROCESS
    else if (arch == "x64" && d[0] >= X32_SYSCALL_BIT) || d[0] in denied then RET_ERRNO_EPERM
    else RET_ALLOW
  }

  lemma {:induction false} RulesAt(nrs: seq<Word>, j: nat)
    requires j < |nrs|
    ensures |Rules(nrs)| == 2 * |nrs|
    ensures Rules(nrs)[2 * j] == Insn(JEQ_K, 0, 1, nrs[j])
    ensures Rules(nrs)[2 * j + 1] == Insn(RET_K, 0, 0, RET_ERRNO_EPERM)
  {
    var front := nrs[..|nrs| - 1];
    if j < |front| {
      RulesAt(front, j);
      assert front[j] == nrs[j];
    } else if front != [] {
      RulesAt(front, 0);
    }
  }

  lemma RulesMore(nrs: seq<Word>, i: nat)
    requires i < |nrs|
    ensures Rules(nrs[..i + 1]) == Rules(nrs[..i]) + Denial(JEQ_K, nrs[i])
  {
    assert nrs[..i + 1][..i] == nrs[..i];
  }

  lemma RulesLength(nrs: seq<Word>)
    ensures |Rules(nrs)| == 2 * |nrs|
  {
    if nrs != [] { RulesAt(nrs, 0); }
  }

  /** From the j-th rule on, the program denies exactly the remaining numbers. */
  lemma {:induction false} RunRules(arch: string, audit: Word, nrs: seq<Word>, d: Data, nr: Word, j: nat)
    requires j <= |nrs|
    ensures Exec(Program(arch, audit, nrs), d, nr, |Prologue(arch, audit)| + 2 * j)
         == Return(if nr in nrs[j..] then RET_ERRNO_EPERM else RET_ALLOW)
    decreases |nrs| - j
  {
    var p, h := Program(arch, audit, nrs), |Prologue(arch, audit)|;
    RulesLength(nrs);
    if j == |nrs| {
      assert p[h + 2 * j] == Insn(RET_K, 0, 0, RET_ALLOW);
    } else {
      RulesAt(nrs, j);
      assert p[h + 2 * j] == Insn(JEQ_K, 0, 1, nrs[j]);
      assert p[h + 2 * j + 1] == Insn(RET_K, 0, 0, RET_ERRNO_EPERM);
      assert nrs[j..] == [nrs[j]] + nrs[j + 1..];
      if nr != nrs[j] {
        RunRules(arch, audit, nrs, d, nr, j + 1);
        assert h + 2 * (j + 1) == h + 2 * j + 1 + 1;
      }
    }
  }

  lemma RunProgram(arch: string, audit: Word, nrs: seq<Word>, d: Data, a: Word)
    ensures Exec(Program(arch, audit, nrs), d, a, 0) == Return(Verdict(arch, audit, (set n | n in nrs), d))
  {
    var p := Program(arch, audit, nrs);
    var h := Prologue(arch, audit);
    assert forall pc :: 0 <= pc < |h| ==> p[pc] == h[pc];
    RunRules(arch, audit, nrs, d, d[0], 0);
    assert nrs[0..] == nrs;
    assert Exec(p, d, a, 0) == Exec(p, d, d[1], 1);
    if d[1] == audit {
      assert Exec(p, d, d[1], 1) == Exec(p, d, d[1], 3);
      assert Exec(p, d, d[1], 3) == Exec(p, d, d[0], 4);
      if arch == "x64" {
        assert Exec(p, d, d[0], 4) == if d[0] >= X32_SYSCALL_BIT then Exec(p, d, d[0], 5) else Exec(p, d, d[0], 6);
      }
    } else {
      assert Exec(p, d, d[1], 1) == Exec(p, d, d[1], 2);
    }
  }

  lemma ProgramChecked(arch: string, audit: Word, nrs: seq<Word>)
    ensures Checked(Program(arch, audit, nrs))
  {
    var p, h := Program(arch, audit, nrs), |Prologue(arch, audit)|;
    RulesLength(nrs);
    forall pc | 0 <= pc < |p| ensures CheckedAt(p, pc) {
      if h <= pc < |p| - 1 {
        var j := (pc - h) / 2;
        RulesAt(nrs, j);
        assert p[pc] == Rules(nrs)[pc - h];
        assert pc - h == 2 * j || pc - h == 2 * j + 1;
      }
    }
  }

  // ---------------------------------------------------------------- the compiler

  /** The numbers of a table without repeats, in ascending order (a Set spread into an array and sorted). */
  function Ascending(s: set<Word>): (r: seq<Word>)
    ensures forall n :: n in r <==> n in s
    ensures forall i, j :: 0 <= i < j < |r| ==> r[i] < r[j]
    decreases |s|
  {
    if s == {} then []
    else
      var m := Largest(s);
      Ascending(s - {m}) + [m]
  }

  ghost predicate IsTop(m: Word, s: set<Word>) { m in s && forall n :: n in s ==> n <= m }

  function Largest(s: set<Word>): (m: Word)
    requires s != {}
    ensures IsTop(m, s)
  {
    LargestExists(s);
    var m :| m in s && forall n :: n in s ==> n <= m;
    m
  }

  lemma LargestExists(s: set<Word>)
    requires s != {}
    ensures exists m :: IsTop(m, s)
  {
    var x :| x in s;
    var rest := s - {x};
    if rest == {} {
      assert s == {x};
      assert IsTop(x, s);
    } else {
      LargestExists(rest);
      var m :| IsTop(m, rest);
      assert forall n :: n in s ==> n == x || n in rest;
      assert IsTop(if x > m then x else m, s);
    }
  }

  /** One instruction as eight bytes, written field by field into a new buffer. */
  method Instruction(code: int, jt: Byte, jf: Byte, k: int) returns (bytes: Buffer)
    requires 0 <= code < 0x1_0000
    ensures Decode(bytes) == Insn(code, jt, jf, Unsigned(k))
  {
    var b := new Byte[8](_ => 0);
    b[0], b[1] := code % 0x100, code / 0x100;
    b[2] := jt;
    b[3] := jf;
    var w := Unsigned(k);
    b[4], b[5], b[6], b[7] := w % 0x100, w / 0x100 % 0x100, w / 0x100 / 0x100 % 0x100, w / 0x100 / 0x100 / 0x100;
    return b[..];
  }

  /** `prog.push(insn(code, jt, jf, k))`. */
  method Push(prog: seq<Buffer>, code: int, jt: Byte, jf: Byte, k: Word) returns (more: seq<Buffer>)
    requires 0 <= code < 0x1_0000
    ensures DecodeEach(more) == DecodeEach(prog) + [Insn(code, jt, jf, k)]
  {
    var b := Instruction(code, jt, jf, k);
    DecodeOneMore(prog, b);
    more := prog + [b];
  }

  /** A test and, when it succeeds, EPERM: how every denied number is answered. */
  method PushDenial(prog: seq<Buffer>, test: int, k: Word) returns (more: seq<Buffer>)
    requires 0 <= test < 0x1_0000
    ensures DecodeEach(more) == DecodeEach(prog) + Denial(test, k)
  {
    more := Push(prog, test, 0, 1, k);
    more := Push(more, RET_K, 0, 0, RET_ERRNO_EPERM);
  }

  /** What the filter must do with every call, whatever was in the accumulator. */
  ghost predicate Decides(p: seq<Insn>, arch: string, denied: set<Word>) {
    forall d: Data :: Exec(p, d, 0, 0) == Return(Verdict(arch, AuditOf(arch), denied, d))
  }

  lemma ProgramDecides(arch: string, table: map<string, Word>)
    ensures Decides(Program(arch, AuditOf(arch), Ascending(table.Values)), arch, table.Values)
  {
    var nrs := Ascending(table.Values);
    assert (set n | n in nrs) == table.Values;
    forall d: Data {
      RunProgram(arch, AuditOf(arch), nrs, d, 0);
    }
  }

  /** The bytes are a program that passes the loader's check and decides every call as it must. */
  ghost predicate Filters(bytes: seq<Byte>, arch: string, denied: set<Word>) {
    |bytes| % 8 == 0 && Checked(DecodeAll(bytes)) && Decides(DecodeAll(bytes), arch, denied)
  }

  lemma EmittedCorrect(prog: seq<Buffer>, arch: string, table: map<string, Word>)
    requires DecodeEach(prog) == Program(arch, AuditOf(arch), Ascending(table.Values))
    ensures Filters(Concat(prog), arch, table.Values)
  {
    DecodeConcat(prog);
    ProgramChecked(arch, AuditOf(arch), Ascending(table.Values));
    ProgramDecides(arch, table);
  }

  /** The instructions before the rules. */
  method Start(arch: string, audit: Word) returns (prog: seq<Buffer>)
    ensures DecodeEach(prog) == Prologue(arch, audit)
  {
    prog := Push([], LD_W_ABS, 0, 0, OFF_ARCH);
    prog := Push(prog, JEQ_K, 1, 0, audit);
    prog := Push(prog, RET_K, 0, 0, RET_KILL_PROCESS);
    prog := Push(prog, LD_W_ABS, 0, 0, OFF_NR);
    if arch == "x64" {
      prog := PushDenial(prog, JGE_K, X32_SYSCALL_BIT);
    }
  }

  /**
   The filter of an architecture, or None when it has no table. Run on any system call, the bytes kill a call of
   another architecture, answer EPERM for a listed number (and on x64 for every number with the x32 bit or above it),
   and allow everything else; they pass the loader's check, so no jump leaves the program.
   */
  method Compile(arch: string, tables: map<string, map<string, Word>>) returns (r: Option<seq<Byte>>)
    ensures r.Some? <==> arch in tables
    ensures r.Some? ==> Filters(r.value, arch, tables[arch].Values)
  {
    if arch !in tables {
      return None;
    }
    var prog := Emit(arch, Ascending(tables[arch].Values));
    EmittedCorrect(prog, arch, tables[arch]);
    return Some(Concat(prog));
  }

  /** The instructions for some numbers. */
  method Emit(arch: string, nrs: seq<Word>) returns (prog: seq<Buffer>)
    ensures DecodeEach(prog) == Program(arch, AuditOf(arch), nrs)
  {
    prog := Start(arch, AuditOf(arch));
    for i := 0 to |nrs|
      invariant DecodeEach(prog) == Prologue(arch, AuditOf(arch)) + Rules(nrs[..i])
    {
      RulesMore(nrs, i);
      prog := PushDenial(prog, JEQ_K, nrs[i]);
    }
    assert nrs[..|nrs|] == nrs;
    prog := Push(prog, RET_K, 0, 0, RET_ALLOW);
  }

  /** The filter the sandbox runs under: there is one for both architectures of the table, and for no other. */
  method CompileShipped(arch: string) returns (r: Option<seq<Byte>>)
    ensures r.Some? <==> arch == "x64" || arch == "arm64"
    ensures r.Some? ==> Filters(r.value, arch, (if arch == "x64" then X64_SYSCALLS else ARM64_SYSCALLS).Values)
  {
    r := Compile(arch, SYSCALLS);
  }

  /** AUDIT_ARCH[arch]; a missing name is undefined, which `>>> 0` writes as zero. */
  function AuditOf(arch: string): Word { if arch in AUDIT_ARCH then AUDIT_ARCH[arch] else 0 }
}
