// Argument vectors packed into one buffer (argvlen, argvpack, argscount and argvunpack of util.h) and
// the buffer that Execute hands to exec_wrapper (tinyoslib.c).

module ArgPack {
  import opened Lists

  type Byte = x: int | 0 <= x < 256

  // -------------------------------------------------------- strings and buffers

  /** strlen of memory that holds a terminating 0. */
  function StrLen(m: seq<Byte>): (n: nat)
    requires 0 in m
    ensures n < |m| && m[n] == 0 && forall i | 0 <= i < n :: m[i] != 0
  {
    if m[0] == 0 then 0 else 1 + StrLen(m[1..])
  }

  /** The string that starts at the start of m. */
  function CStr(m: seq<Byte>): seq<Byte>
    requires 0 in m
  {
    m[..StrLen(m)]
  }

  predicate IsVector(argv: seq<seq<Byte>>) {
    forall i | 0 <= i < |argv| :: 0 in argv[i]
  }

  function Strings(argv: seq<seq<Byte>>): (r: seq<seq<Byte>>)
    requires IsVector(argv)
    ensures |r| == |argv| && forall i | 0 <= i < |argv| :: r[i] == CStr(argv[i])
  {
    seq(|argv|, i requires 0 <= i < |argv| => CStr(argv[i]))
  }

  predicate NulFree(ss: seq<seq<Byte>>) {
    forall i | 0 <= i < |ss| :: 0 !in ss[i]
  }

  /** The strings one after the other, each with its 0. */
  function Packed(ss: seq<seq<Byte>>): seq<Byte> {
    if ss == [] then [] else ss[0] + [0] + Packed(ss[1..])
  }

  function Zeros(buf: seq<Byte>): nat {
    multiset(buf)[0]
  }

  /** The strings that lie in a buffer; what follows its last 0 is none. */
  function Unpacked(buf: seq<Byte>): (r: seq<seq<Byte>>)
  {
    if 0 !in buf then [] else [CStr(buf)] + Unpacked(buf[StrLen(buf) + 1..])
  }

  predicate Terminated(buf: seq<Byte>) {
    buf == [] || buf[|buf| - 1] == 0
  }

  // ----------------------------------------------------------------- round trips

  lemma StrLenOfPacked(s: seq<Byte>, rest: seq<Byte>)
    requires 0 !in s
    ensures var m := s + [0] + rest;
            0 in m && StrLen(m) == |s| && CStr(m) == s && m[StrLen(m) + 1..] == rest
            && Zeros(m) == 1 + Zeros(rest) && (Terminated(m) <==> Terminated(rest))
  {
    var m := s + [0] + rest;
    assert 0 !in multiset(s);
    assert m[|m| - 1] == if rest == [] then 0 else rest[|rest| - 1];
    assert m[|s|] == 0;
    assert forall i | 0 <= i < |s| :: m[i] == s[i] && s[i] in s;
  }

  /** Unpacking what was packed gives the strings back. */
  lemma {:induction false} UnpackAfterPack(ss: seq<seq<Byte>>)
    requires NulFree(ss)
    ensures Unpacked(Packed(ss)) == ss && Zeros(Packed(ss)) == |ss| && Terminated(Packed(ss))
  {
    hide StrLen, CStr, Zeros, Terminated;
    if ss == [] {
      EmptyBuffer();
    } else {
      StrLenOfPacked(ss[0], Packed(ss[1..]));
      UnpackAfterPack(ss[1..]);
    }
  }

  lemma EmptyBuffer()
    ensures Zeros([]) == 0 && Terminated([])
  {
  }

  lemma SplitAtZero(buf: seq<Byte>)
    requires 0 in buf
    ensures var rest := buf[StrLen(buf) + 1..];
            && buf == CStr(buf) + [0] + rest && 0 !in CStr(buf) && Zeros(buf) == 1 + Zeros(rest)
            && (Terminated(buf) <==> Terminated(rest))
  {
    var k := StrLen(buf);
    assert buf == buf[..k] + [0] + buf[k + 1..];
    assert 0 !in multiset(buf[..k]);
  }

  /** There are as many strings as zero bytes, none with a zero in it. */
  lemma {:induction false} UnpackedCount(buf: seq<Byte>)
    ensures |Unpacked(buf)| == Zeros(buf) && NulFree(Unpacked(buf))
    decreases |buf|
  {
    hide CStr, StrLen, Zeros, Terminated, NulFree;
    if 0 in buf {
      SplitAtZero(buf);
      var rest := buf[StrLen(buf) + 1..];
      UnpackedCount(rest);
      NulFreeCons(CStr(buf), Unpacked(rest));
    } else {
      NoZeros(buf);
      NulFreeNone();
    }
  }

  lemma NoZeros(buf: seq<Byte>)
    requires 0 !in buf
    ensures Zeros(buf) == 0
  {
    assert 0 !in multiset(buf);
  }

  lemma NulFreeNone()
    ensures NulFree([])
  {
  }

  lemma NulFreeCons(s: seq<Byte>, ss: seq<seq<Byte>>)
    requires 0 !in s && NulFree(ss)
    ensures NulFree([s] + ss)
  {
  }

  /** Packing what was unpacked gives the buffer back, up to its last 0. */
  lemma {:induction false} PackAfterUnpack(buf: seq<Byte>)
    ensures Packed(Unpacked(buf)) <= buf && 0 !in buf[|Packed(Unpacked(buf))|..]
    ensures Packed(Unpacked(buf)) == buf <==> Terminated(buf)
    decreases |buf|
  {
    hide StrLen, CStr;
    if 0 in buf {
      SplitAtZero(buf);
      var s, rest := CStr(buf), buf[StrLen(buf) + 1..];
      PackAfterUnpack(rest);
      var us, p := Unpacked(buf), Packed(Unpacked(rest));
      assert us[0] == s && us[1..] == Unpacked(rest);
      assert Packed(us) == s + [0] + p;
      SamePrefix(s + [0], p, rest);
    } else {
      assert buf == [] || buf[|buf| - 1] in buf;
    }
  }

  lemma SamePrefix(a: seq<Byte>, p: seq<Byte>, rest: seq<Byte>)
    requires p <= rest
    ensures a + p <= a + rest && (a + rest)[|a + p|..] == rest[|p|..] && (a + p == a + rest <==> p == rest)
  {
    assert (a + rest)[..|a + p|] == a + rest[..|p|];
    assert (a + p)[|a|..] == p && (a + rest)[|a|..] == rest;
  }

  // ------------------------------------------------------ the functions in place

  lemma {:induction false} PackedSnoc(ss: seq<seq<Byte>>, s: seq<Byte>)
    ensures Packed(ss + [s]) == Packed(ss) + s + [0]
  {
    if ss == [] {
      assert ss + [s] == [s];
    } else {
      assert (ss + [s])[1..] == ss[1..] + [s];
      PackedSnoc(ss[1..], s);
    }
  }

  lemma {:induction false} PackedSplit(ss: seq<seq<Byte>>, i: nat)
    requires i <= |ss|
    ensures Packed(ss) == Packed(ss[..i]) + Packed(ss[i..])
  {
    if i > 0 {
      PackedSplit(ss[1..], i - 1);
      assert ss[..i][1..] == ss[1..][..i - 1] && ss[i..] == ss[1..][i - 1..];
    }
  }

  /** One more string fits when all of them do. */
  lemma PackedNext(argv: seq<seq<Byte>>, i: nat)
    requires IsVector(argv) && i < |argv|
    ensures Packed(Strings(argv[..i + 1])) == Packed(Strings(argv[..i])) + CStr(argv[i]) + [0]
    ensures |Packed(Strings(argv[..i + 1]))| <= |Packed(Strings(argv))|
  {
    assert Strings(argv[..i + 1]) == Strings(argv[..i]) + [CStr(argv[i])];
    PackedSnoc(Strings(argv[..i]), CStr(argv[i]));
    assert Strings(argv)[..i + 1] == Strings(argv[..i + 1]);
    PackedSplit(Strings(argv), i + 1);
  }

  method Argvlen(argv: seq<seq<Byte>>) returns (l: nat)
    requires IsVector(argv)
    ensures l == |Packed(Strings(argv))|
  {
    l := 0;
    for i := 0 to |argv|
      invariant l == |Packed(Strings(argv[..i]))|
    {
      PackedNext(argv, i);
      l := l + StrLen(argv[i]) + 1;
    }
    assert argv[..|argv|] == argv;
  }

  /** args + at must have room for argvlen bytes; nothing else is written. */
  method Argvpack(args: array<Byte>, at: nat, argv: seq<seq<Byte>>) returns (n: nat)
    requires IsVector(argv) && at + |Packed(Strings(argv))| <= args.Length
    modifies args
    ensures n == |Packed(Strings(argv))| && args[at..at + n] == Packed(Strings(argv))
    ensures forall k | 0 <= k < args.Length && !(at <= k < at + n) :: args[k] == old(args[k])
  {
    hide Packed, StrLen;
    assert Packed(Strings(argv[..0])) == [] by { PackedNothing(); }
    var argl, pos := 0, at;
    for i := 0 to |argv|
      invariant argl + i == pos - at == |Packed(Strings(argv[..i]))| && at <= pos <= at + |Packed(Strings(argv))|
      invariant args[at..pos] == Packed(Strings(argv[..i]))
      invariant forall k | 0 <= k < args.Length && !(at <= k < pos) :: args[k] == old(args[k])
    {
      PackedNext(argv, i);
      Assoc(Packed(Strings(argv[..i])), CStr(argv[i]), [0]);
      var m := pos;
      ghost var done := args[at..m];
      pos := CopyString(args, pos, argv[i]);
      argl := argl + (pos - m - 1);
      assert args[at..m] == done;
      assert args[at..pos] == args[at..m] + args[m..pos];
    }
    assert argv[..|argv|] == argv;
    n := argl + |argv|;
  }

  /** while ((*pos++ = *s++)), from args + pos0. */
  method CopyString(args: array<Byte>, pos0: nat, s: seq<Byte>) returns (pos: nat)
    requires 0 in s && pos0 + StrLen(s) + 1 <= args.Length
    modifies args
    ensures pos == pos0 + StrLen(s) + 1 && args[pos0..pos] == CStr(s) + [0]
    ensures forall k | 0 <= k < args.Length && !(pos0 <= k < pos) :: args[k] == old(args[k])
  {
    pos := pos0;
    var j := 0;
    while true
      invariant j <= StrLen(s) && pos == pos0 + j && args[pos0..pos] == s[..j]
      invariant forall k | 0 <= k < args.Length && !(pos0 <= k < pos) :: args[k] == old(args[k])
      decreases StrLen(s) - j
    {
      args[pos] := s[j];
      pos, j := pos + 1, j + 1;
      assert args[pos0..pos] == s[..j];
      if s[j - 1] == 0 { break; }
    }
    assert s[..j] == CStr(s) + [0];
  }

  /** A negative length counts nothing. */
  method Argscount(args: array<Byte>, at: nat, argl: int) returns (n: nat)
    requires at <= args.Length && at + argl <= args.Length
    ensures n == if argl < 0 then 0 else Zeros(args[at..at + argl])
  {
    n := 0;
    var i := 0;
    while i < argl
      invariant 0 <= i && (i <= argl || i == 0)
      invariant n == Zeros(args[at..at + i])
    {
      assert args[at..at + i + 1] == args[at..at + i] + [args[at + i]];
      if args[at + i] == 0 {
        n := n + 1;
      }
      i := i + 1;
    }
  }

  /**
   * The pointers are indices of `args`. The buffer is args[at..end]; no more than argscount strings
   * are unpacked, and nothing past `end` is read.
   */
  method Argvunpack(argc: nat, argv: array<nat>, args: array<Byte>, at: nat, end: nat) returns (a: nat)
    requires at <= end <= args.Length && argc <= Zeros(args[at..end]) && argc <= argv.Length && argv as object != args
    modifies argv
    ensures at <= a <= end
    ensures argc <= |Unpacked(args[at..end])| && Unpacked(args[a..end]) == Unpacked(args[at..end])[argc..]
    ensures forall i | 0 <= i < argc :: PointsTo(args[..end], argv[i], Unpacked(args[at..end])[i])
    ensures args[at..a] == Packed(Unpacked(args[at..end])[..argc])
    ensures forall i | argc <= i < argv.Length :: argv[i] == old(argv[i])
  {
    hide StrLen, CStr, Unpacked, Packed, Zeros;
    a := at;
    ghost var us := Unpacked(args[at..end]);
    UnpackedCount(args[at..end]);
    assert Packed(us[..0]) == [] by { PackedNothing(); }
    for i := 0 to argc
      invariant at <= a <= end && Unpacked(args[a..end]) == us[i..]
      invariant forall k | 0 <= k < i :: PointsTo(args[..end], argv[k], us[k])
      invariant args[at..a] == Packed(us[..i])
      invariant forall k | i <= k < argv.Length :: argv[k] == old(argv[k])
    {
      ghost var all := args[..end];
      assert all[a..] == args[a..end] && all[at..a] == args[at..a];
      NextString(all, at, a, us, i);
      argv[i] := a;
      a := SkipString(args, a, end);
      assert all[a..] == args[a..end] && all[at..a] == args[at..a];
    }
  }

  /** Index p of m is where the string s begins. */
  predicate PointsTo(m: seq<Byte>, p: nat, s: seq<Byte>) {
    p < |m| && 0 in m[p..] && CStr(m[p..]) == s
  }

  lemma PackedNothing()
    ensures Packed([]) == []
  {
  }

  lemma TakeMore(all: seq<Byte>, at: nat, o: nat, s: seq<Byte>, rest: seq<Byte>)
    requires at <= o <= |all| && all[o..] == s + rest
    ensures o + |s| <= |all| && all[at..o + |s|] == all[at..o] + s && all[o + |s|..] == rest
  {
    assert all[o..][..|s|] == s && all[o..][|s|..] == rest;
  }

  /** The string at o, when those between at and o are the first i of us and those from o on the others. */
  lemma NextString(all: seq<Byte>, at: nat, o: nat, us: seq<seq<Byte>>, i: nat)
    requires at <= o <= |all| && i < |us| && Unpacked(all[o..]) == us[i..] && all[at..o] == Packed(us[..i])
    ensures 0 in all[o..] && CStr(all[o..]) == us[i]
    ensures var e := o + StrLen(all[o..]) + 1;
            e <= |all| && Unpacked(all[e..]) == us[i + 1..] && all[at..e] == Packed(us[..i + 1])
  {
    hide StrLen, CStr, Packed, Unpacked, Terminated, Zeros;
    var mem := all[o..];
    UnpackedHead(mem, us, i);
    HeadAndRest(mem);
    TakeMore(all, at, o, us[i] + [0], mem[StrLen(mem) + 1..]);
    PackedPrefix(us, i);
  }

  lemma HeadAndRest(mem: seq<Byte>)
    requires 0 in mem
    ensures mem == (CStr(mem) + [0]) + mem[StrLen(mem) + 1..] && |CStr(mem) + [0]| == StrLen(mem) + 1
  {
    hide StrLen, CStr;
    SplitAtZero(mem);
    CStrLength(mem);
  }

  lemma UnpackedHead(mem: seq<Byte>, us: seq<seq<Byte>>, i: nat)
    requires i < |us| && Unpacked(mem) == us[i..]
    ensures 0 in mem && CStr(mem) == us[i] && Unpacked(mem[StrLen(mem) + 1..]) == us[i + 1..]
  {
    hide StrLen, CStr;
    assert us[i..] == [us[i]] + us[i + 1..];
    var tail := us[i + 1..];
    assert |us[i..]| > 0;
    assert 0 in mem;
    var rest := mem[StrLen(mem) + 1..];
    assert Unpacked(mem) == [CStr(mem)] + Unpacked(rest);
    SameHeads(CStr(mem), Unpacked(rest), us[i], tail);
  }

  lemma SameHeads<T>(x: T, a: seq<T>, y: T, b: seq<T>)
    requires [x] + a == [y] + b
    ensures x == y && a == b
  {
    assert ([x] + a)[0] == x && ([x] + a)[1..] == a;
    assert ([y] + b)[0] == y && ([y] + b)[1..] == b;
  }

  lemma PackedPrefix(us: seq<seq<Byte>>, i: nat)
    requires i < |us|
    ensures Packed(us[..i + 1]) == Packed(us[..i]) + (us[i] + [0])
  {
    hide Packed;
    assert us[..i + 1] == us[..i] + [us[i]];
    PackedSnoc(us[..i], us[i]);
    Assoc(Packed(us[..i]), us[i], [0]);
  }

  lemma Assoc(a: seq<Byte>, b: seq<Byte>, c: seq<Byte>)
    ensures a + (b + c) == a + b + c
  {
  }

  lemma CStrLength(m: seq<Byte>)
    requires 0 in m
    ensures |CStr(m)| == StrLen(m)
  {
  }

  /** while (*a++), which finds its 0 before `end`. */
  method SkipString(args: array<Byte>, a0: nat, end: nat) returns (a: nat)
    requires a0 <= end <= args.Length && 0 in args[a0..end]
    ensures a == a0 + StrLen(args[a0..end]) + 1 && a <= end
  {
    a := a0;
    ghost var mem := args[a0..end];
    while args[a] != 0
      invariant a0 <= a <= a0 + StrLen(mem) < end
      decreases end - a
    {
      assert mem[a - a0] == args[a];
      a := a + 1;
    }
    assert mem[a - a0] == args[a];
    a := a + 1;
  }

  // ------------------------------------------- Execute and what reads its buffer

  /** sizeof(Program). */
  const WORD: nat := 8

  const PROCINFO_MAX_ARGS_SIZE: nat := 128

  /** A pointer to a program, as memcpy copies it. */
  type Program = p: seq<Byte> | |p| == WORD witness [0, 0, 0, 0, 0, 0, 0, 0]

  function ExecBuffer(prog: Program, ss: seq<seq<Byte>>): seq<Byte> {
    prog + Packed(ss)
  }

  lemma StringsAreNulFree(argv: seq<seq<Byte>>)
    requires IsVector(argv)
    ensures NulFree(Strings(argv))
  {
    forall i | 0 <= i < |argv| ensures 0 !in Strings(argv)[i] {
      SplitAtZero(argv[i]);
    }
  }

  /** The program and the strings are found again in the buffer. */
  lemma ExecBufferRoundTrip(prog: Program, ss: seq<seq<Byte>>)
    requires NulFree(ss)
    ensures var buf := ExecBuffer(prog, ss);
            && |buf| >= WORD && buf[..WORD] == prog
            && Unpacked(buf[WORD..]) == ss && Zeros(buf[WORD..]) == |ss| && Terminated(buf[WORD..])
  {
    UnpackAfterPack(ss);
    assert ExecBuffer(prog, ss)[WORD..] == Packed(ss);
  }

  /** The buffer that Execute hands to Exec. */
  method Execute(prog: Program, argv: seq<seq<Byte>>) returns (args: array<Byte>)
    requires IsVector(argv)
    ensures fresh(args) && args[..] == ExecBuffer(prog, Strings(argv))
    ensures Unpacked(args[..][WORD..]) == Strings(argv)
  {
    hide Packed, Unpacked, Zeros, Terminated;
    var argl := Argvlen(argv);
    args := new Byte[argl + WORD](_ => 0);
    for k := 0 to WORD
      invariant args[..k] == prog[..k]
    {
      args[k] := prog[k];
    }
    var n := Argvpack(args, WORD, argv);
    assert args[..] == args[..WORD] + args[WORD..WORD + n];
    assert args[..WORD] == prog;
    StringsAreNulFree(argv);
    ExecBufferRoundTrip(prog, Strings(argv));
  }

  /** What exec_wrapper calls: the program, and the pointers to the strings. */
  method ExecWrapper(args: array<Byte>) returns (prog: Program, argv: array<nat>)
    requires args.Length >= WORD
    ensures prog == args[..WORD] && argv.Length == |Unpacked(args[WORD..])| == Zeros(args[WORD..])
    ensures forall i | 0 <= i < argv.Length :: PointsTo(args[..], argv[i], Unpacked(args[WORD..])[i])
  {
    hide Packed, Unpacked, Terminated, Zeros;
    prog := args[..WORD];
    var argl := args.Length - WORD;
    assert args[WORD..WORD + argl] == args[WORD..] && args[..WORD + argl] == args[..];
    var argc := Argscount(args, WORD, argl);
    UnpackedCount(args[WORD..]);
    argv := new nat[argc];
    var end := Argvunpack(argc, argv, args, WORD, WORD + argl);
  }

  /** exec_wrapper calls exactly the program and the arguments given to Execute. */
  method ExecuteThenWrapper(prog: Program, argv: seq<seq<Byte>>) returns (called: Program, args: array<Byte>, ptrs: array<nat>)
    requires IsVector(argv)
    ensures called == prog && ptrs.Length == |argv|
    ensures forall i | 0 <= i < |argv| :: PointsTo(args[..], ptrs[i], CStr(argv[i]))
  {
    hide Packed, Unpacked, Zeros, Terminated, CStr;
    args := Execute(prog, argv);
    assert args[..][WORD..] == args[WORD..] && args[..WORD] == prog;
    called, ptrs := ExecWrapper(args);
  }

  /** A procinfo: whether main_task is exec_wrapper, the arguments' length, and the first bytes of them. */
  datatype ProcInfo = ProcInfo(fromExecute: bool, argl: int, args: seq<Byte>)

  datatype Parsed = Unparsed | Parsed(n: nat, prog: Option<Program>, argv: seq<seq<Byte>>)

  predicate Parsable(info: ProcInfo) {
    info.fromExecute && info.argl <= PROCINFO_MAX_ARGS_SIZE
  }

  /** The buffer's strings, as far as there is room, an int that is negative being larger than any size_t; `argv` is whether the pointer was not NULL. */
  function Fills(info: ProcInfo, argc: int, argv: bool): seq<seq<Byte>>
    requires Parsable(info) && WORD <= info.argl <= |info.args|
  {
    var ss := Unpacked(info.args[WORD..info.argl]);
    if !argv then [] else if argc < 0 || argc > |ss| then ss else ss[..argc]
  }

  /** What is promised: the caller's variable `prog`, if any, receives the program. */
  function Promised(info: ProcInfo, prog: Option<Program>, argc: int, argv: bool): Parsed
    requires Parsable(info) ==> WORD <= info.argl <= |info.args|
  {
    if !Parsable(info) then Unparsed
    else Parsed(Zeros(info.args[WORD..info.argl]), if prog.None? then None else Some(info.args[..WORD]), Fills(info, argc, argv))
  }

  /** What ParseProcInfo does: it copies the program over its own parameter, and the caller's variable stays as it was. */
  function Parse(info: ProcInfo, prog: Option<Program>, argc: int, argv: bool): Parsed
    requires Parsable(info) ==> WORD <= info.argl <= |info.args|
  {
    if !Parsable(info) then Unparsed
    else Parsed(Zeros(info.args[WORD..info.argl]), prog, Fills(info, argc, argv))
  }

  /** The promise is kept exactly when no program is asked for, or the caller's variable held it already. */
  lemma ParseKeepsItsPromiseIff(info: ProcInfo, prog: Option<Program>, argc: int, argv: bool)
    requires Parsable(info) ==> WORD <= info.argl <= |info.args|
    ensures Parse(info, prog, argc, argv) == Promised(info, prog, argc, argv)
       <==> !Parsable(info) || prog.None? || prog.value == info.args[..WORD]
  {
  }

  lemma ParseDoesNotSetProg()
    ensures var info := ProcInfo(true, WORD, seq(WORD, i => 1));
            var prog: Program := seq(WORD, i => 0);
            Parse(info, Some(prog), 0, false) != Promised(info, Some(prog), 0, false)
  {
    var info := ProcInfo(true, WORD, seq(WORD, i => 1));
    var prog: Program := seq(WORD, i => 0);
    assert info.args[..WORD][0] != prog[0];
    ParseKeepsItsPromiseIff(info, Some(prog), 0, false);
  }

  /** The number of arguments and the arguments of a process run by Execute are recovered, if they fit in a procinfo. */
  lemma ParseRecoversArguments(prog: Program, ss: seq<seq<Byte>>, info: ProcInfo, var0: Option<Program>, argc: int)
    requires NulFree(ss) && info.fromExecute && info.argl == |ExecBuffer(prog, ss)|
    requires info.argl <= PROCINFO_MAX_ARGS_SIZE <= |info.args| && info.args[..info.argl] == ExecBuffer(prog, ss)
    ensures var r := Parse(info, var0, argc, true); r.Parsed? && r.n == |ss| && r.argv == if 0 <= argc < |ss| then ss[..argc] else ss
    ensures info.args[..WORD] == prog
  {
    hide Packed, Unpacked, Zeros, Terminated, NulFree;
    ExecBufferRoundTrip(prog, ss);
    assert info.args[WORD..info.argl] == info.args[..info.argl][WORD..];
    assert info.args[..WORD] == info.args[..info.argl][..WORD];
  }

  /** `prog` and `argv` may be null; `*prog` is an array of bytes. */
  method ParseProcInfo(fromExecute: bool, argl: int, args: array<Byte>, prog: array?<Byte>, argc: int, argv: array?<nat>) returns (ret: int)
    requires args.Length == PROCINFO_MAX_ARGS_SIZE && (fromExecute ==> WORD <= argl)
    requires prog != null ==> prog.Length == WORD
    requires argv != null ==> argv as object != args && argv as object != prog
    requires argv != null && fromExecute && argl <= PROCINFO_MAX_ARGS_SIZE ==>
               0 <= argc <= argv.Length || Zeros(args[WORD..argl]) <= argv.Length
    modifies if argv == null then {} else {argv}
    ensures if fromExecute && argl <= PROCINFO_MAX_ARGS_SIZE then
              var ss := Unpacked(args[WORD..argl]);
              && ret == Zeros(args[WORD..argl]) == |ss|
              && (argv != null ==>
                    forall i | 0 <= i < |ss| && (0 <= argc ==> i < argc) :: i < argv.Length && PointsTo(args[..argl], argv[i], ss[i]))
              && (argv != null ==> forall i | |ss| <= i < argv.Length || 0 <= argc <= i < argv.Length :: argv[i] == old(argv[i]))
            else ret == -1 && (argv != null ==> argv[..] == old(argv[..]))
    ensures var r := Parse(ProcInfo(fromExecute, argl, args[..]), if prog == null then None else Some(prog[..]), argc, argv != null);
            && (r.Unparsed? <==> ret == -1)
            && (r.Parsed? ==>
                 && ret == r.n
                 && (prog != null ==> r.prog == Some(prog[..]))
                 && (argv != null ==> |r.argv| <= argv.Length && forall i | 0 <= i < |r.argv| :: PointsTo(args[..argl], argv[i], r.argv[i])))
  {
    hide Packed, Unpacked, Terminated, Zeros, CStr, PointsTo;
    if !fromExecute { return -1; }
    if argl > PROCINFO_MAX_ARGS_SIZE { return -1; }
    assert args[..][WORD..argl] == args[WORD..argl];
    UnpackedCount(args[WORD..argl]);
    var n := Argscount(args, WORD, argl - WORD);
    if argv != null {
      var end := Argvunpack(if argc < 0 || argc > n then n else argc, argv, args, WORD, argl);
    }
    return n;
  }
}
