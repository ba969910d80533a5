/** What a trace of allocator calls means: records, the machine that replays them, and the heap they describe. */
module TraceSpec {
  import opened Words

  datatype Op =
    | Malloc(size: U64, address: U64)
    | Realloc(was: U64, size: U64, address: U64)
    | Free(address: U64)

  datatype Record = Record(time: U32, op: Op)

  datatype Fields = Fields(
    time: U32, mallocs: nat, reallocs: nat, frees: nat, unknownReallocs: nat, unknownFrees: nat)

  // What the reader prints, line by line.
  datatype Line =
    | Snapshot(time: U32, total: U64, unknownFrees: nat)
    | Repeated(address: U64, size: U64)
    | TimeGoesBack(time: U32, after: U32)
    | Garbage(command: int)
    | CorruptEnd(left: nat)

  datatype Machine = Machine(fields: Fields, live: map<U64, U64>, printed: seq<Line>)

  const EMPTY := Machine(Fields(0, 0, 0, 0, 0, 0), map[], [])

  ghost function Sum(m: map<U64, U64>): nat {
    if m == map[] then 0 else
      var k :| k in m;
      m[k] + Sum(m - {k})
  }

  ghost function Total(m: map<U64, U64>): U64 { Sum(m) % 0x1_0000_0000_0000_0000 }

  function Say(m: Machine, line: Line): Machine { m.(printed := m.printed + [line]) }

  ghost function ShowState(m: Machine): Machine {
    if m.fields.time == 0 then m else Say(m, Snapshot(m.fields.time, Total(m.live), m.fields.unknownFrees))
  }

  ghost function Tick(m: Machine, time: U32): Machine {
    if time > m.fields.time then
      var shown := ShowState(m);
      shown.(fields := shown.fields.(time := time))
    else if time < m.fields.time then Say(m, TimeGoesBack(time, m.fields.time))
    else m
  }

  function AddEntry(m: Machine, address: U64, size: U64): Machine {
    if address in m.live then Say(m, Repeated(address, size)) else m.(live := m.live[address := size])
  }

  function Count(m: Machine, f: Fields): Machine { m.(fields := f) }

  function Perform(m: Machine, op: Op): Machine {
    match op
    case Malloc(size, address) =>
      var n := AddEntry(m, address, size);
      Count(n, n.fields.(mallocs := n.fields.mallocs + 1))
    case Realloc(was, size, address) =>
      if was !in m.live then
        AddEntry(Count(m, m.fields.(unknownReallocs := m.fields.unknownReallocs + 1)), address, size)
      else
        var n := if was != address then AddEntry(m.(live := m.live - {was}), address, size)
                 else m.(live := m.live[was := size]);
        Count(n, n.fields.(reallocs := n.fields.reallocs + 1))
    case Free(address) =>
      if address !in m.live then Count(m, m.fields.(unknownFrees := m.fields.unknownFrees + 1))
      else Count(m.(live := m.live - {address}), m.fields.(frees := m.fields.frees + 1))
  }

  ghost function Apply(m: Machine, r: Record): Machine { Perform(Tick(m, r.time), r.op) }

  ghost function Replay(m: Machine, records: seq<Record>): Machine
    decreases |records|
  {
    if records == [] then m else Replay(Apply(m, records[0]), records[1..])
  }

  // The byte form: a command, a 32-bit time and one, two or three 64-bit values.

  function EntrySize(command: Byte): (n: nat)
    ensures n == 0 || 13 <= n <= 29
  {
    if command == 1 then 21 else if command == 2 then 29 else if command == 3 then 13 else 0
  }

  function RecordAt(s: seq<Byte>): Record
    requires |s| > 0 && EntrySize(s[0]) > 0 && |s| >= EntrySize(s[0])
  {
    Record(U32At(s, 1),
      if s[0] == 1 then Malloc(U64At(s, 5), U64At(s, 13))
      else if s[0] == 2 then Realloc(U64At(s, 5), U64At(s, 13), U64At(s, 21))
      else Free(U64At(s, 5)))
  }

  function SignedByte(b: Byte): int { if b < 0x80 then b else b - 0x100 }

  // Where parsing some bytes ends: the machine, the unread rest, and whether a bad command stopped it.
  datatype Parsed = Parsed(machine: Machine, rest: seq<Byte>, garbage: bool)

  ghost function ParseBytes(m: Machine, s: seq<Byte>): Parsed
    decreases |s|
  {
    if s == [] then Parsed(m, s, false)
    else if EntrySize(s[0]) == 0 then Parsed(Say(m, Garbage(SignedByte(s[0]))), s, true)
    else if |s| < EntrySize(s[0]) then Parsed(m, s, false)
    else ParseBytes(Apply(m, RecordAt(s)), s[EntrySize(s[0])..])
  }

  // One pass over a whole file.
  ghost function ReadWhole(file: seq<Byte>): Machine {
    var p := ParseBytes(EMPTY, file);
    ShowState(if !p.garbage && p.rest != [] then Say(p.machine, CorruptEnd(|p.rest|)) else p.machine)
  }

  // Parsing may stop anywhere and go on from the unread rest.
  lemma {:induction false} ParseSplit(m: Machine, s: seq<Byte>, t: seq<Byte>)
    ensures var p, q := ParseBytes(m, s), ParseBytes(m, s + t);
            && (p.garbage ==> q.garbage && q.machine == p.machine)
            && (!p.garbage ==> |p.rest| < 29 && q == ParseBytes(p.machine, p.rest + t))
    decreases |s|
  {
    hide Apply;
    if s == [] {
      assert s + t == t;
    } else {
      var n := EntrySize(s[0]);
      assert (s + t)[0] == s[0];
      if 0 < n <= |s| {
        hide U32At, U64At;
        assert (s + t)[n..] == s[n..] + t;
        RecordPrefix(s, t);
        ParseSplit(Apply(m, RecordAt(s)), s[n..], t);
      }
    }
  }

  lemma RecordPrefix(s: seq<Byte>, t: seq<Byte>)
    requires |s| > 0 && 0 < EntrySize(s[0]) <= |s|
    ensures RecordAt(s + t) == RecordAt(s)
  {
  }

  // What parsing reads is a suffix of what it was given.
  lemma {:induction false} RestIsSuffix(m: Machine, s: seq<Byte>)
    ensures var p := ParseBytes(m, s); |p.rest| <= |s| && p.rest == s[|s| - |p.rest|..]
    decreases |s|
  {
    hide Apply, RecordAt;
    if s != [] && 0 < EntrySize(s[0]) <= |s| {
      RestIsSuffix(Apply(m, RecordAt(s)), s[EntrySize(s[0])..]);
    }
  }

  function EncodeRecord(r: Record): (s: seq<Byte>)
    ensures |s| > 0 && EntrySize(s[0]) == |s|
  {
    match r.op
    case Malloc(size, address) => [1] + LeU32(r.time) + LeU64(size) + LeU64(address)
    case Realloc(was, size, address) => [2] + LeU32(r.time) + LeU64(was) + LeU64(size) + LeU64(address)
    case Free(address) => [3] + LeU32(r.time) + LeU64(address)
  }

  // Where everything is in a record.
  lemma RecordLayout(r: Record)
    ensures var s := EncodeRecord(r);
      && s[1..5] == LeU32(r.time)
      && match r.op
         case Malloc(size, address) =>
           |s| == 21 && s[0] == 1 && s[5..13] == LeU64(size) && s[13..21] == LeU64(address)
         case Realloc(was, size, address) =>
           && |s| == 29 && s[0] == 2
           && s[5..13] == LeU64(was) && s[13..21] == LeU64(size) && s[21..29] == LeU64(address)
         case Free(address) => |s| == 13 && s[0] == 3 && s[5..13] == LeU64(address)
  {
    hide LeU32, LeU64;
  }

  function EncodeTrace(records: seq<Record>): seq<Byte> {
    if records == [] then [] else EncodeRecord(records[0]) + EncodeTrace(records[1..])
  }

  lemma At32(s: seq<Byte>, at: nat, v: U32)
    requires at + 4 <= |s| && s[at..at + 4] == LeU32(v)
    ensures U32At(s, at) == v
  {
    hide LeU32;
    LeU32Inverse(v, LeU32(v));
    assert U32At(s, at) == U32At(s[at..at + 4], 0);
  }

  lemma At64(s: seq<Byte>, at: nat, v: U64)
    requires at + 8 <= |s| && s[at..at + 8] == LeU64(v)
    ensures U64At(s, at) == v
  {
    hide LeU32, LeU64;
    LeU64Inverse(v, LeU64(v));
    assert U64At(s, at) == U64At(s[at..at + 8], 0);
  }

  lemma RecordRoundTrip(r: Record)
    ensures RecordAt(EncodeRecord(r)) == r
  {
    hide LeU32, LeU64, U32At, U64At;
    var s := EncodeRecord(r);
    At32(s, 1, r.time);
    match r.op
    case Malloc(size, address) =>
      At64(s, 5, size);
      At64(s, 13, address);
    case Realloc(was, size, address) =>
      At64(s, 5, was);
      At64(s, 13, size);
      At64(s, 21, address);
    case Free(address) =>
      At64(s, 5, address);
  }

  lemma {:induction false} ParseEncoded(m: Machine, records: seq<Record>)
    ensures ParseBytes(m, EncodeTrace(records)) == Parsed(Replay(m, records), [], false)
    decreases |records|
  {
    hide Apply, RecordAt, EncodeRecord;
    if records != [] {
      var s, t := EncodeRecord(records[0]), EncodeTrace(records[1..]);
      assert (s + t)[|s|..] == t;
      RecordRoundTrip(records[0]);
      RecordPrefix(s, t);
      ParseEncoded(Apply(m, records[0]), records[1..]);
    }
  }

  lemma {:induction false} SumPick(m: map<U64, U64>, k: U64)
    requires k in m
    ensures Sum(m) == m[k] + Sum(m - {k})
    decreases |m|
  {
    var j :| j in m && Sum(m) == m[j] + Sum(m - {j});
    if j != k {
      SumPick(m - {j}, k);
      SumPick(m - {k}, j);
      assert m - {j} - {k} == m - {k} - {j};
    }
  }

  lemma SumOfNone()
    ensures Sum(map[]) == 0
  {
  }

  lemma WrappingAdd(x: nat, y: U64)
    ensures (x % 0x1_0000_0000_0000_0000 + y) % 0x1_0000_0000_0000_0000 == (x + y) % 0x1_0000_0000_0000_0000
  {
    var q := x / 0x1_0000_0000_0000_0000;
    assert x + y == (x % 0x1_0000_0000_0000_0000 + y) + q * 0x1_0000_0000_0000_0000;
  }

  lemma ParseNothing(m: Machine)
    ensures ParseBytes(m, []) == Parsed(m, [], false)
  {
  }

  // The books: every entry ever opened is still live, was freed, or was reported as repeated.

  function Repeats(printed: seq<Line>): nat {
    if printed == [] then 0
    else Repeats(printed[..|printed| - 1]) + if printed[|printed| - 1].Repeated? then 1 else 0
  }

  predicate Balanced(m: Machine) {
    |m.live| + m.fields.frees + Repeats(m.printed) == m.fields.mallocs + m.fields.unknownReallocs
  }

  lemma SayRepeats(m: Machine, line: Line)
    ensures Repeats(Say(m, line).printed) == Repeats(m.printed) + if line.Repeated? then 1 else 0
  {
    assert Say(m, line).printed[..|m.printed|] == m.printed;
  }

  lemma PerformBalanced(m: Machine, op: Op)
    requires Balanced(m)
    ensures Balanced(Perform(m, op))
  {
    hide Repeats;
    match op
    case Malloc(size, address) => SayRepeats(m, Repeated(address, size));
    case Realloc(was, size, address) =>
      SayRepeats(m, Repeated(address, size));
      if was in m.live {
        assert |m.live - {was}| == |m.live| - 1;
      }
    case Free(address) =>
      if address in m.live {
        assert |m.live - {address}| == |m.live| - 1;
      }
  }

  lemma ApplyBalanced(m: Machine, r: Record)
    requires Balanced(m)
    ensures Balanced(Apply(m, r))
  {
    hide Repeats, Total, Perform;
    SayRepeats(m, Snapshot(m.fields.time, Total(m.live), m.fields.unknownFrees));
    SayRepeats(m, TimeGoesBack(r.time, m.fields.time));
    PerformBalanced(Tick(m, r.time), r.op);
  }

  lemma EmptyBalanced()
    ensures Balanced(EMPTY)
  {
  }

  lemma {:induction false} ParseBalanced(m: Machine, s: seq<Byte>)
    requires Balanced(m)
    ensures Balanced(ParseBytes(m, s).machine)
    decreases |s|
  {
    hide Apply, RecordAt, Repeats;
    if s != [] {
      if EntrySize(s[0]) == 0 {
        SayRepeats(m, Garbage(SignedByte(s[0])));
      } else if EntrySize(s[0]) <= |s| {
        ApplyBalanced(m, RecordAt(s));
        ParseBalanced(Apply(m, RecordAt(s)), s[EntrySize(s[0])..]);
      }
    }
  }

  // Whatever bytes the file holds.
  lemma ReadBalanced(file: seq<Byte>)
    ensures Balanced(ReadWhole(file))
  {
    hide Repeats, ParseBytes, Total;
    EmptyBalanced();
    ParseBalanced(EMPTY, file);
    var p := ParseBytes(EMPTY, file);
    SayRepeats(p.machine, CorruptEnd(|p.rest|));
    var m := if !p.garbage && p.rest != [] then Say(p.machine, CorruptEnd(|p.rest|)) else p.machine;
    SayRepeats(m, Snapshot(m.fields.time, Total(m.live), m.fields.unknownFrees));
  }

  // Any other byte in the place of a command ends the reading, printed as a signed character; bytes that make no whole
  // record are reported at the end of the file.
  lemma GarbageMeans(m: Machine, s: seq<Byte>)
    requires s != [] && s[0] != 1 && s[0] != 2 && s[0] != 3
    ensures var p, command: int := ParseBytes(m, s), s[0];
      && p.garbage
      && p.machine == m.(printed := m.printed + [Garbage(if command <= 127 then command else command - 256)])
  {
  }

  lemma CorruptEndMeans(file: seq<Byte>)
    ensures var p := ParseBytes(EMPTY, file);
      !p.garbage && p.rest != [] ==>
        ReadWhole(file) == ShowState(p.machine.(printed := p.machine.printed + [CorruptEnd(|p.rest|)]))
  {
    hide ParseBytes, Total;
  }

  // The counters are those of the records of each kind, however the reader took them.

  datatype Kind = Mallocs | Reallocs | Frees

  function KindOf(op: Op): Kind {
    match op case Malloc(_, _) => Mallocs case Realloc(_, _, _) => Reallocs case Free(_) => Frees
  }

  function OfKind(records: seq<Record>, kind: Kind): nat
    decreases |records|
  {
    if records == [] then 0 else (if KindOf(records[0].op) == kind then 1 else 0) + OfKind(records[1..], kind)
  }

  function Counted(f: Fields, kind: Kind): nat {
    match kind
    case Mallocs => f.mallocs
    case Reallocs => f.reallocs + f.unknownReallocs
    case Frees => f.frees + f.unknownFrees
  }

  lemma {:induction false} CountersExactly(m: Machine, records: seq<Record>, kind: Kind)
    ensures Counted(Replay(m, records).fields, kind) == Counted(m.fields, kind) + OfKind(records, kind)
    decreases |records|
  {
    hide Perform, Tick, Counted;
    if records != [] {
      CountersExactly(Apply(m, records[0]), records[1..], kind);
      TickMeans(m, records[0].time);
      SameCounts(m.fields, Tick(m, records[0].time).fields, kind);
      PerformCounts(Tick(m, records[0].time), records[0].op, kind);
    }
  }

  lemma SameCounts(f: Fields, g: Fields, kind: Kind)
    requires g == f.(time := g.time)
    ensures Counted(g, kind) == Counted(f, kind)
  {
  }

  lemma PerformCounts(m: Machine, op: Op, kind: Kind)
    ensures Counted(Perform(m, op).fields, kind) == Counted(m.fields, kind) + if KindOf(op) == kind then 1 else 0
  {
  }

  // What a record does to the entries: a known address is known with the new size, or with the old one and a warning
  // if it was there already; a realloc of an unknown address is counted and opens an entry; a free of one is counted.
  lemma RecordMeans(m: Machine, op: Op, a: U64)
    ensures var n, f, g := Perform(m, op), m.fields, Perform(m, op).fields;
      match op
      case Malloc(size, address) =>
        && (a in n.live <==> a in m.live || a == address)
        && (a in m.live ==> n.live[a] == m.live[a])
        && (address !in m.live ==> n.live[address] == size)
        && n.printed == (if address in m.live then m.printed + [Repeated(address, size)] else m.printed)
      case Realloc(was, size, address) =>
        && (g.unknownReallocs == f.unknownReallocs + 1 <==> was !in m.live)
        && (g.reallocs == f.reallocs + 1 <==> was in m.live)
        && (a in n.live <==> a == address || (a in m.live && a != was))
        && (a in m.live && a != was ==> n.live[a] == m.live[a])
        && (address !in m.live || address == was ==> n.live[address] == size)
        && n.printed ==
           (if address in m.live && address != was then m.printed + [Repeated(address, size)] else m.printed)
      case Free(address) =>
        && (g.unknownFrees == f.unknownFrees + 1 <==> address !in m.live)
        && (g.frees == f.frees + 1 <==> address in m.live)
        && n.live == m.live - {address} && n.printed == m.printed
  {
    if op.Free? && op.address !in m.live {
      assert m.live - {op.address} == m.live;
    }
  }

  // When a record comes, a second that has ended is shown, with what is live then, and a clock set back is reported.
  lemma TickMeans(m: Machine, time: U32)
    ensures var n := Tick(m, time);
      && n.live == m.live && n.fields == m.fields.(time := if time > m.fields.time then time else m.fields.time)
      && n.printed == m.printed +
           if time > m.fields.time > 0 then
             [Snapshot(m.fields.time, Sum(m.live) % 0x1_0000_0000_0000_0000, m.fields.unknownFrees)]
           else if time < m.fields.time then [TimeGoesBack(time, m.fields.time)] else []
  {
    hide Sum;
  }

  // The sum is that of all entries, in whatever order they are added.
  lemma SumMeans(m: map<U64, U64>, address: U64, size: U64)
    requires address !in m
    ensures Sum(map[]) == 0 && Sum(m[address := size]) == Sum(m) + size
  {
    hide Sum;
    SumOfNone();
    SumPick(m[address := size], address);
    assert m[address := size] - {address} == m;
  }

  // The heap a real allocator keeps, and what a run of it should make the reader print.

  predicate Legal(heap: map<U64, U64>, op: Op) {
    match op
    case Malloc(size, address) => address != 0 && address !in heap
    case Realloc(was, size, address) =>
      (was == 0 || was in heap) && address != 0 && (address == was || address !in heap)
    case Free(address) => address == 0 || address in heap
  }

  function HeapStep(heap: map<U64, U64>, op: Op): map<U64, U64> {
    match op
    case Malloc(size, address) => heap[address := size]
    case Realloc(was, size, address) => (heap - {was})[address := size]
    case Free(address) => heap - {address}
  }

  function HeapAfter(heap: map<U64, U64>, records: seq<Record>): map<U64, U64>
    decreases |records|
  {
    if records == [] then heap else HeapAfter(HeapStep(heap, records[0].op), records[1..])
  }

  predicate LegalTrace(heap: map<U64, U64>, records: seq<Record>)
    decreases |records|
  {
    records == [] || (Legal(heap, records[0].op) && LegalTrace(HeapStep(heap, records[0].op), records[1..]))
  }

  ghost function Shown(time: U32, heap: map<U64, U64>, nullFrees: nat): seq<Line> {
    if time == 0 then [] else [Snapshot(time, Total(heap), nullFrees)]
  }

  // One line for each second that ends, with the bytes live at that moment, and one for the end of the run.
  ghost function HeapReport(time: U32, heap: map<U64, U64>, nullFrees: nat, records: seq<Record>): seq<Line>
    decreases |records|
  {
    if records == [] then Shown(time, heap, nullFrees) else
      var r := records[0];
      var heap' := HeapStep(heap, r.op);
      var nullFrees' := nullFrees + if r.op == Free(0) then 1 else 0;
      if r.time > time then Shown(time, heap, nullFrees) + HeapReport(r.time, heap', nullFrees', records[1..])
      else if r.time < time then [TimeGoesBack(r.time, time)] + HeapReport(time, heap', nullFrees', records[1..])
      else HeapReport(time, heap', nullFrees', records[1..])
  }

  lemma LegalStep(m: Machine, r: Record)
    requires 0 !in m.live && Legal(m.live, r.op)
    ensures var n := Apply(m, r);
            && 0 !in n.live && n.live == HeapStep(m.live, r.op)
            && n.printed == Tick(m, r.time).printed && n.fields.time == Tick(m, r.time).fields.time
            && n.fields.unknownFrees == m.fields.unknownFrees + if r.op == Free(0) then 1 else 0
  {
    hide Total;
    if r.op.Realloc? && r.op.was !in m.live {
      assert m.live - {r.op.was} == m.live;
    }
    if r.op == Free(0) {
      assert m.live - {0} == m.live;
    }
  }

  lemma {:induction false} LegalReplay(m: Machine, records: seq<Record>)
    requires 0 !in m.live && LegalTrace(m.live, records)
    ensures var n := Replay(m, records);
            && n.live == HeapAfter(m.live, records)
            && ShowState(n).printed == m.printed + HeapReport(m.fields.time, m.live, m.fields.unknownFrees, records)
    decreases |records|
  {
    hide Total, Perform;
    if records != [] {
      LegalStep(m, records[0]);
      LegalReplay(Apply(m, records[0]), records[1..]);
    }
  }

  // On the trace of a well-behaved allocator the reader's map is the heap and every line it prints is true.
  lemma HeapTracked(records: seq<Record>)
    requires LegalTrace(map[], records)
    ensures var m := ReadWhole(EncodeTrace(records));
            m.live == HeapAfter(map[], records) && m.printed == HeapReport(0, map[], 0, records)
  {
    hide Total, HeapReport, Replay, EncodeTrace, ParseBytes;
    ParseEncoded(EMPTY, records);
    LegalReplay(EMPTY, records);
    assert EMPTY.printed + HeapReport(0, map[], 0, records) == HeapReport(0, map[], 0, records);
  }
}

/** The reader itself: global state changed in place, a fixed buffer, and a carry moved to its front. */
module TraceReading {
  import opened Words
  import opened TraceSpec

  const BUFFER_SIZE: nat := 0x10_0000

  method AddUp(m: map<U64, U64>) returns (full: int)
    ensures full == Total(m)
  {
    hide Sum;
    SumOfNone();
    var left := m;
    ghost var exact := 0;
    full := 0;
    while left != map[]
      invariant 0 <= exact && full == exact % 0x1_0000_0000_0000_0000 && exact + Sum(left) == Sum(m)
      decreases |left|
    {
      var address :| address in left;
      SumPick(left, address);
      WrappingAdd(exact, left[address]);
      full := (full + left[address]) % 0x1_0000_0000_0000_0000;
      exact, left := exact + left[address], left - {address};
    }
  }

  class TraceReader {
    var fields: Fields
    var live: map<U64, U64>
    var printed: seq<Line>
    const buffer: array<Byte>

    constructor ()
      ensures Now() == EMPTY && buffer.Length == BUFFER_SIZE && fresh(buffer)
    {
      fields, live, printed := Fields(0, 0, 0, 0, 0, 0), map[], [];
      buffer := new Byte[BUFFER_SIZE](_ => 0);
    }

    ghost function Now(): Machine
      reads this
    {
      Machine(fields, live, printed)
    }

    method Print(line: Line)
      modifies this
      ensures Now() == Say(old(Now()), line)
    {
      printed := printed + [line];
    }

    method PrintState()
      modifies this
      ensures Now() == ShowState(old(Now()))
    {
      if fields.time == 0 {
        return;
      }
      var full := AddUp(live);
      Print(Snapshot(fields.time, full, fields.unknownFrees));
    }

    method Add(address: U64, size: U64)
      modifies this
      ensures Now() == AddEntry(old(Now()), address, size)
    {
      if address in live {
        Print(Repeated(address, size));
        return;
      }
      live := live[address := size];
    }

    method ParseMalloc(at: nat)
      requires at + 16 <= buffer.Length
      modifies this
      ensures Now() == Perform(old(Now()), Malloc(U64At(buffer[..], at), U64At(buffer[..], at + 8)))
    {
      hide U64At;
      var size := U64At(buffer[..], at);
      var address := U64At(buffer[..], at + 8);
      Add(address, size);
      fields := fields.(mallocs := fields.mallocs + 1);
    }

    method ParseRealloc(at: nat)
      requires at + 24 <= buffer.Length
      modifies this
      ensures Now() == Perform(old(Now()),
                         Realloc(U64At(buffer[..], at), U64At(buffer[..], at + 8), U64At(buffer[..], at + 16)))
    {
      hide U64At;
      var was := U64At(buffer[..], at);
      var size := U64At(buffer[..], at + 8);
      var address := U64At(buffer[..], at + 16);
      if was !in live {
        fields := fields.(unknownReallocs := fields.unknownReallocs + 1);
        Add(address, size);
      } else if was != address {
        live := live - {was};
        Add(address, size);
        fields := fields.(reallocs := fields.reallocs + 1);
      } else {
        live := live[was := size];
        fields := fields.(reallocs := fields.reallocs + 1);
      }
    }

    method ParseFree(at: nat)
      requires at + 8 <= buffer.Length
      modifies this
      ensures Now() == Perform(old(Now()), Free(U64At(buffer[..], at)))
    {
      hide U64At;
      var address := U64At(buffer[..], at);
      if address !in live {
        fields := fields.(unknownFrees := fields.unknownFrees + 1);
      } else {
        live := live - {address};
        fields := fields.(frees := fields.frees + 1);
      }
    }

    method UpdateTime(time: U32)
      modifies this
      ensures Now() == Tick(old(Now()), time)
    {
      hide Total;
      if time > fields.time {
        PrintState();
        fields := fields.(time := time);
      } else if time < fields.time {
        Print(TimeGoesBack(time, fields.time));
      }
    }

    // The number of bytes consumed, or -1 for a bad command.
    method Parse(end: nat) returns (result: int)
      requires end <= buffer.Length
      modifies this
      ensures var p := ParseBytes(old(Now()), buffer[..end]);
              && Now() == p.machine
              && (p.garbage ==> result == -1)
              && (!p.garbage ==> 0 <= result <= end && p.rest == buffer[result..end])
    {
      hide Tick, Perform, U64At, U32At;
      ghost var all := ParseBytes(Now(), buffer[..end]);
      result := 0;
      while end > result
        invariant 0 <= result <= end
        invariant all == ParseBytes(Now(), buffer[result..end])
        decreases end - result
      {
        ghost var s := buffer[result..end];
        var command := buffer[result];
        var entry := EntrySize(command);
        if entry == 0 {
          Print(Garbage(SignedByte(command)));
          return -1;
        }
        if end - result < entry {
          break;
        }
        assert s[0] == command && s[entry..] == buffer[result + entry..end];
        SliceRecord(buffer[..], result, end);
        UpdateTime(U32At(buffer[..], result + 1));
        if command == 1 {
          ParseMalloc(result + 5);
        } else if command == 2 {
          ParseRealloc(result + 5);
        } else {
          ParseFree(result + 5);
        }
        result := result + entry;
      }
    }

    // `memmove` to the front, when the source lies further on.
    method MoveToFront(from: nat, count: nat)
      requires from + count <= buffer.Length
      modifies buffer
      ensures buffer[..count] == old(buffer[from..from + count])
    {
      for i := 0 to count
        invariant buffer[..i] == old(buffer[from..from + i])
        invariant forall k :: from + i <= k < buffer.Length ==> buffer[k] == old(buffer[k])
      {
        buffer[i] := buffer[from + i];
      }
    }

    method Fill(data: nat, bytes: seq<Byte>)
      requires data + |bytes| <= buffer.Length
      modifies buffer
      ensures buffer[..data + |bytes|] == old(buffer[..data]) + bytes
    {
      for i := 0 to |bytes|
        invariant buffer[..data + i] == old(buffer[..data]) + bytes[..i]
      {
        buffer[data + i] := bytes[i];
      }
    }

    // One turn of the reading loop: `piece` lands behind the carry, what can be parsed is, the rest is carried on.
    method Consume(data: nat, piece: seq<Byte>) returns (left: nat, stop: bool)
      requires data + |piece| <= buffer.Length
      modifies this, buffer
      ensures var p := ParseBytes(old(Now()), old(buffer[..data]) + piece);
              && Now() == p.machine && stop == p.garbage
              && (!stop ==> left < 29 && left <= buffer.Length && buffer[..left] == p.rest)
    {
      hide ParseBytes;
      Fill(data, piece);
      var end := data + |piece|;
      ghost var p := ParseBytes(Now(), buffer[..end]);
      var parsed := Parse(end);
      if parsed < 0 {
        return 0, true;
      }
      left, stop := end - parsed, false;
      if left > 0 {
        MoveToFront(parsed, left);
      }
      assert buffer[..left] == p.rest;
      ParseSplit(old(Now()), old(buffer[..data]) + piece, []);
    }

    // Reads the file in pieces: read number k brings as many bytes as `wanted[k]` asks for, at least one
    // and never more than the buffer or the file still hold; further reads bring all they can.
    method Run(file: seq<Byte>, wanted: seq<nat>)
      requires Now() == EMPTY && buffer.Length == BUFFER_SIZE
      modifies this, buffer
      ensures Now() == ReadWhole(file)
    {
      hide ParseBytes, ShowState;
      var data: nat, position, turn, stop := 0, 0, 0, false;
      ghost var all := ParseBytes(EMPTY, file);
      ParseNothing(EMPTY);
      assert buffer[..0] + file[0..] == file;
      while !stop
        invariant 0 <= position <= |file|
        invariant !stop ==> data < 29 // the carry: less than one entry
        invariant !stop ==> all == ParseBytes(Now(), buffer[..data] + file[position..])
        invariant !stop ==> ParseBytes(Now(), buffer[..data]) == Parsed(Now(), buffer[..data], false)
        invariant stop ==> ShowState(Now()) == ReadWhole(file)
        decreases !stop, |file| - position
      {
        var room := if |file| - position < BUFFER_SIZE - data then |file| - position else BUFFER_SIZE - data;
        var read := if turn < |wanted| && wanted[turn] < room then wanted[turn] else room;
        read := if read == 0 && room > 0 then 1 else read;
        if read == 0 {
          assert buffer[..data] + file[position..] == buffer[..data];
          if data != 0 {
            Print(CorruptEnd(data));
          }
          stop := true;
        } else {
          ghost var m, given, rest := Now(), buffer[..data] + file[position..position + read], file[position + read..];
          assert buffer[..data] + file[position..] == given + rest;
          ParseSplit(m, given, rest);
          data, stop := Consume(data, file[position..position + read]);
          position, turn := position + read, turn + 1;
          if !stop {
            Reparse(m, given);
          }
        }
      }
      PrintState();
    }
  }

  lemma SliceRecord(b: seq<Byte>, from: nat, end: nat)
    requires from < end <= |b| && 0 < EntrySize(b[from]) <= end - from
    ensures RecordAt(b[from..end]) ==
      Record(U32At(b, from + 1),
        if b[from] == 1 then Malloc(U64At(b, from + 5), U64At(b, from + 13))
        else if b[from] == 2 then Realloc(U64At(b, from + 5), U64At(b, from + 13), U64At(b, from + 21))
        else Free(U64At(b, from + 5)))
  {
  }

  // What parsing leaves over, it would leave over again.
  lemma {:induction false} Reparse(m: Machine, s: seq<Byte>)
    requires !ParseBytes(m, s).garbage
    ensures var p := ParseBytes(m, s); ParseBytes(p.machine, p.rest) == p
    decreases |s|
  {
    hide Apply, RecordAt;
    if s != [] && EntrySize(s[0]) <= |s| {
      Reparse(Apply(m, RecordAt(s)), s[EntrySize(s[0])..]);
    }
  }
}
