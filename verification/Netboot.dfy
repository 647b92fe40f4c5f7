/** Booting over a network that loses, repeats and reorders packets: a sender that repeats each block until
    it is acknowledged, and a client that writes what it gets to memory and acknowledges it. */
module Netboot {

  type Byte = x: int | 0 <= x < 256

  const BLOCK := 1024
  const NUMBERS := 65536

  /** Block numbers have sixteen bits. */
  datatype Packet = Load(blk: nat, data: seq<Byte>) | Ack(blk: nat) | Exec

  datatype Mode = Reading | Awaiting | Done

  /** `net` holds the packets under way: any of them may arrive at any time, again and again, until it is lost.
      `memory` is the client's, from the address it loads to. */
  datatype State = State(i: nat, mode: Mode, buffer: seq<Byte>, net: set<Packet>, memory: seq<Byte>)

  ghost function Blocks(file: seq<Byte>): nat { (|file| + BLOCK - 1) / BLOCK }

  ghost function PartAt(file: seq<Byte>, i: nat): (r: seq<Byte>)
    requires i < Blocks(file)
    ensures 0 < |r| <= BLOCK
  {
    if i * BLOCK + BLOCK <= |file| then file[i * BLOCK..i * BLOCK + BLOCK] else file[i * BLOCK..]
  }

  /** Reading a part into the buffer leaves the rest of the buffer as it was. */
  ghost function ReadInto(buffer: seq<Byte>, part: seq<Byte>): seq<Byte>
    requires |part| <= |buffer|
  {
    part + buffer[|part|..]
  }

  ghost function Init(buffer: seq<Byte>, memory: seq<Byte>): State {
    State(0, Reading, buffer, {}, memory)
  }

  function Write(memory: seq<Byte>, at: nat, data: seq<Byte>): seq<Byte>
    requires at + |data| <= |memory|
  {
    memory[..at] + data + memory[at + |data|..]
  }

  datatype Step = ReadNext | Retry | SenderGets(p: Packet) | ClientGets(p: Packet) | Lose(p: Packet)

  ghost predicate Sized(s: State) {
    |s.buffer| == BLOCK && |s.memory| >= NUMBERS * BLOCK
      && forall p :: p in s.net && p.Load? ==> |p.data| == BLOCK && p.blk < NUMBERS
  }

  ghost predicate Enabled(s: State, e: Step) {
    match e
    case ReadNext => s.mode == Reading
    case Retry => s.mode == Awaiting
    case SenderGets(p) => s.mode == Awaiting && p in s.net
    case ClientGets(p) => p in s.net
    case Lose(p) => p in s.net
  }

  ghost function Resent(s: State): State {
    s.(net := s.net + {Load(s.i % NUMBERS, s.buffer)})
  }

  ghost function Apply(s: State, e: Step, file: seq<Byte>): State
    requires Sized(s) && Enabled(s, e)
  {
    match e
    case ReadNext =>
      if s.i < Blocks(file) then Resent(s.(buffer := ReadInto(s.buffer, PartAt(file, s.i)), mode := Awaiting))
      else s.(net := s.net + {Exec}, mode := Done)
    case Retry => Resent(s)
    case Lose(p) => s.(net := s.net - {p})
    case SenderGets(p) =>
      if p == Ack(s.i % NUMBERS) then s.(i := s.i + 1, mode := Reading) else Resent(s)
    case ClientGets(p) =>
      match p
      case Load(blk, data) => s.(memory := Write(s.memory, blk * BLOCK, data), net := s.net + {Ack(blk)})
      case _ => s
  }

  lemma StepSized(s: State, e: Step, file: seq<Byte>)
    requires Sized(s) && Enabled(s, e)
    ensures Sized(Apply(s, e, file)) && |Apply(s, e, file).memory| == |s.memory|
  {
  }

  ghost predicate Legal(s: State, run: seq<Step>, file: seq<Byte>)
    decreases |run|
  {
    Sized(s) && (run != [] ==> Enabled(s, run[0]) && Legal(Apply(s, run[0], file), run[1..], file))
  }

  ghost function After(s: State, run: seq<Step>, file: seq<Byte>): State
    requires Legal(s, run, file)
    decreases |run|
  {
    if run == [] then s else After(Apply(s, run[0], file), run[1..], file)
  }

  ghost predicate HoldsFile(s: State, file: seq<Byte>) {
    |file| <= |s.memory| && forall k :: 0 <= k < |file| ==> s.memory[k] == file[k]
  }

  // ---------------------------------------------------------------- what every step keeps

  /** Block j of the memory starts with part j of the file. */
  ghost predicate Loaded(s: State, file: seq<Byte>, j: nat) {
    j < Blocks(file) && j < NUMBERS ==>
      |s.memory| >= NUMBERS * BLOCK && forall k {:trigger PartAt(file, j)[k]} :: 0 <= k < |PartAt(file, j)| ==>
        s.memory[j * BLOCK + k] == PartAt(file, j)[k]
  }

  ghost predicate Carries(p: Packet, file: seq<Byte>) {
    p.Load? ==> p.blk < Blocks(file) && |p.data| == BLOCK && PartAt(file, p.blk) <= p.data
  }

  ghost predicate Inv(s: State, file: seq<Byte>) {
    && Sized(s) && s.i <= Blocks(file) <= NUMBERS
    && (s.mode == Awaiting ==> s.i < Blocks(file) && PartAt(file, s.i) <= s.buffer)
    && (s.mode == Done ==> s.i == Blocks(file)) && (Exec in s.net ==> s.mode == Done)
    && (forall p :: p in s.net ==> Carries(p, file))
    && (forall p :: p in s.net && p.Ack? ==> Loaded(s, file, p.blk))
    && (forall j {:trigger Loaded(s, file, j)} :: 0 <= j < s.i ==> Loaded(s, file, j))
  }

  lemma WriteKeeps(s: State, u: State, blk: nat, data: seq<Byte>, file: seq<Byte>, j: nat)
    requires Sized(s) && blk < NUMBERS && |data| == BLOCK && blk < Blocks(file) && PartAt(file, blk) <= data
    requires u.memory == Write(s.memory, blk * BLOCK, data) && (j == blk || Loaded(s, file, j))
    ensures Loaded(u, file, j)
  {
    if j < Blocks(file) && j < NUMBERS {
      forall k | 0 <= k < |PartAt(file, j)| ensures u.memory[j * BLOCK + k] == PartAt(file, j)[k] {
        if j == blk { assert PartAt(file, j)[k] == data[k]; }
      }
    }
  }

  lemma ClientKeeps(s: State, p: Packet, file: seq<Byte>)
    requires Inv(s, file) && p in s.net
    ensures Inv(Apply(s, ClientGets(p), file), file)
  {
    if p.Load? {
      var u := Apply(s, ClientGets(p), file);
      assert Carries(p, file);
      forall q | q in u.net && q.Ack? ensures Loaded(u, file, q.blk) { WriteKeeps(s, u, p.blk, p.data, file, q.blk); }
      forall j | 0 <= j < u.i ensures Loaded(u, file, j) {
        assert Loaded(s, file, j);
        WriteKeeps(s, u, p.blk, p.data, file, j);
      }
    }
  }

  lemma SameMemory(s: State, u: State, file: seq<Byte>, j: nat)
    requires u.memory == s.memory && Loaded(s, file, j)
    ensures Loaded(u, file, j)
  {
  }

  lemma SenderKeeps(s: State, e: Step, file: seq<Byte>)
    requires Inv(s, file) && Enabled(s, e) && (e.ReadNext? || e.Retry?)
    ensures Inv(Apply(s, e, file), file)
  {
    if e.ReadNext? && s.i < Blocks(file) {
      var part := PartAt(file, s.i);
      var u := s.(buffer := ReadInto(s.buffer, part), mode := Awaiting);
      assert u.buffer[..|part|] == part;
      SameLoads(s, u, file);
      ResentKeeps(u, file);
    } else if e.ReadNext? {
      SameLoads(s, Apply(s, e, file), file);
    } else {
      ResentKeeps(s, file);
    }
  }

  lemma LoseKeeps(s: State, p: Packet, file: seq<Byte>)
    requires Inv(s, file) && p in s.net
    ensures Inv(Apply(s, Lose(p), file), file)
  {
    SameLoads(s, Apply(s, Lose(p), file), file);
  }

  /** A step that leaves the memory alone, sends no new acknowledgement and does not move on. */
  lemma SameLoads(s: State, u: State, file: seq<Byte>)
    requires Inv(s, file) && u.memory == s.memory && u.i == s.i && forall p :: p in u.net && p.Ack? ==> p in s.net
    ensures forall p :: p in u.net && p.Ack? ==> Loaded(u, file, p.blk)
    ensures forall j {:trigger Loaded(u, file, j)} :: 0 <= j < u.i ==> Loaded(u, file, j)
  {
    forall q | q in u.net && q.Ack? ensures Loaded(u, file, q.blk) { SameMemory(s, u, file, q.blk); }
    forall j | 0 <= j < u.i ensures Loaded(u, file, j) {
      assert Loaded(s, file, j);
      SameMemory(s, u, file, j);
    }
  }

  lemma ResentKeeps(s: State, file: seq<Byte>)
    requires Inv(s, file) && s.mode == Awaiting
    ensures Inv(Resent(s), file)
  {
    assert s.i % NUMBERS == s.i;
    SameLoads(s, Resent(s), file);
    hide Loaded, PartAt;
  }

  lemma AckKeeps(s: State, p: Packet, file: seq<Byte>)
    requires Inv(s, file) && Enabled(s, SenderGets(p))
    ensures Inv(Apply(s, SenderGets(p), file), file)
  {
    if p == Ack(s.i % NUMBERS) {
      var u := Apply(s, SenderGets(p), file);
      forall q | q in u.net && q.Ack? ensures Loaded(u, file, q.blk) { SameMemory(s, u, file, q.blk); }
      forall j | 0 <= j < u.i ensures Loaded(u, file, j) {
        assert j < s.i ==> Loaded(s, file, j);
        SameMemory(s, u, file, j);
      }
    } else {
      ResentKeeps(s, file);
    }
  }

  lemma {:induction false} RunKeeps(s: State, run: seq<Step>, file: seq<Byte>)
    requires Inv(s, file) && Legal(s, run, file)
    ensures Inv(After(s, run, file), file)
    decreases |run|
  {
    if run != [] {
      match run[0] {
        case ClientGets(p) => ClientKeeps(s, p, file);
        case SenderGets(p) => AckKeeps(s, p, file);
        case Lose(p) => LoseKeeps(s, p, file);
        case _ => SenderKeeps(s, run[0], file);
      }
      RunKeeps(Apply(s, run[0], file), run[1..], file);
    }
  }

  lemma AllLoaded(s: State, file: seq<Byte>)
    requires Inv(s, file) && s.i == Blocks(file)
    ensures HoldsFile(s, file)
  {
    forall k | 0 <= k < |file| ensures s.memory[k] == file[k] {
      var j := k / BLOCK;
      assert Loaded(s, file, j);
      assert PartAt(file, j)[k - j * BLOCK] == file[k];
    }
  }

  /** From the moment the sender says to execute, the client's memory holds the whole file, whatever was lost,
      repeated or late, and whatever arrives afterwards. */
  lemma LoadedBeforeExec(buffer: seq<Byte>, memory: seq<Byte>, run: seq<Step>, file: seq<Byte>)
    requires Legal(Init(buffer, memory), run, file) && Blocks(file) <= NUMBERS
    ensures var s := After(Init(buffer, memory), run, file); s.mode == Done || Exec in s.net ==> HoldsFile(s, file)
  {
    RunKeeps(Init(buffer, memory), run, file);
    var s := After(Init(buffer, memory), run, file);
    if s.mode == Done { AllLoaded(s, file); }
  }

  // ---------------------------------------------------------------- files with more blocks than numbers

  lemma {:induction false} Untouched(s: State, run: seq<Step>, file: seq<Byte>, k: nat)
    requires Legal(s, run, file) && NUMBERS * BLOCK <= k < |s.memory|
    ensures var u := After(s, run, file); |u.memory| == |s.memory| && u.memory[k] == s.memory[k]
    decreases |run|
  {
    if run != [] {
      StepSized(s, run[0], file);
      Untouched(Apply(s, run[0], file), run[1..], file, k);
    }
  }

  lemma Then(s: State, e: Step, run: seq<Step>, file: seq<Byte>) returns (longer: seq<Step>)
    requires Sized(s) && Enabled(s, e) && Legal(Apply(s, e, file), run, file)
    ensures Legal(s, longer, file) && After(s, longer, file) == After(Apply(s, e, file), run, file)
  {
    longer := [e] + run;
    assert longer[1..] == run;
  }

  /** Every block gets through when nothing more is lost; one that was lost is sent again. */
  lemma {:induction false} Completes(s: State, file: seq<Byte>) returns (run: seq<Step>)
    requires Sized(s) && s.mode != Done && s.i <= Blocks(file) && (s.mode == Awaiting ==> s.i < Blocks(file))
    ensures Legal(s, run, file) && Exec in After(s, run, file).net && After(s, run, file).mode == Done
    decreases Blocks(file) - s.i
  {
    var e := if s.mode == Reading then ReadNext else Retry;
    var s1 := Apply(s, e, file);
    if s.i == Blocks(file) {
      run := Then(s, ReadNext, [], file);
    } else {
      var p := Load(s.i % NUMBERS, s1.buffer);
      var s2 := Apply(s1, ClientGets(p), file);
      StepSized(s1, ClientGets(p), file);
      var s3 := Apply(s2, SenderGets(Ack(p.blk)), file);
      run := Completes(s3, file);
      run := Then(s2, SenderGets(Ack(p.blk)), run, file);
      run := Then(s1, ClientGets(p), run, file);
      run := Then(s, e, run, file);
    }
  }

  /** The sender has not sent the execute yet, or the execute is under way. */
  ghost predicate CanStart(s: State) {
    s.mode != Done || Exec in s.net
  }

  /** Whatever was lost before, even every packet under way, the whole file can still get into the memory and the
      execute to the client; but the execute is sent once, and when it is lost it never comes. */
  lemma StartsExactlyWhen(s: State, file: seq<Byte>)
    requires Inv(s, file)
    ensures CanStart(s) <==>
      exists run :: Legal(s, run, file) && Exec in After(s, run, file).net && HoldsFile(After(s, run, file), file)
  {
    if CanStart(s) {
      var run := GetsThrough(s, file);
    } else {
      forall run | Legal(s, run, file) ensures Exec !in After(s, run, file).net { NeverStarts(s, run, file); }
    }
  }

  lemma GetsThrough(s: State, file: seq<Byte>) returns (run: seq<Step>)
    requires Inv(s, file) && CanStart(s)
    ensures Legal(s, run, file) && var u := After(s, run, file); Exec in u.net && HoldsFile(u, file)
  {
    if s.mode == Done {
      run := [];
    } else {
      run := Completes(s, file);
    }
    RunKeeps(s, run, file);
    AllLoaded(After(s, run, file), file);
  }

  lemma {:induction false} NeverStarts(s: State, run: seq<Step>, file: seq<Byte>)
    requires !CanStart(s) && Legal(s, run, file)
    ensures !CanStart(After(s, run, file))
    decreases |run|
  {
    if run != [] { NeverStarts(Apply(s, run[0], file), run[1..], file); }
  }

  ghost predicate AlwaysLoaded(file: seq<Byte>) {
    forall buffer, memory, run {:trigger Legal(Init(buffer, memory), run, file)} ::
      Legal(Init(buffer, memory), run, file) ==>
      var s := After(Init(buffer, memory), run, file); Exec in s.net ==> HoldsFile(s, file)
  }

  /** The memory holds the file at every execute, in every run from every memory, exactly when the file has
      no more blocks than there are block numbers. */
  lemma LoadedExactlyWhen(file: seq<Byte>)
    ensures AlwaysLoaded(file) <==> Blocks(file) <= NUMBERS
  {
    if Blocks(file) <= NUMBERS {
      forall buffer, memory, run | Legal(Init(buffer, memory), run, file)
        ensures var s := After(Init(buffer, memory), run, file); Exec in s.net ==> HoldsFile(s, file)
      {
        LoadedBeforeExec(buffer, memory, run, file);
      }
    } else {
      var k := NUMBERS * BLOCK;
      var other: Byte := if file[k] == 0 then 1 else 0;
      var buffer: seq<Byte> := seq(BLOCK, _ => 0);
      var memory := seq(|file|, _ => other);
      var s := Init(buffer, memory);
      var run := Completes(s, file);
      Untouched(s, run, file, k);
    }
  }

  // ---------------------------------------------------------------- the code

  datatype Reply = NoReply | Reply(p: Packet)

  /** The client: what it does with a packet to its port. */
  class Client {
    const memory: array<Byte>
    var running: bool

    constructor (n: nat)
      requires n >= NUMBERS * BLOCK
      ensures fresh(memory) && memory.Length == n && !running
    {
      memory := new Byte[n](_ => 0);
      running := false;
    }

    /** Writes a block to its place, byte by byte, and acknowledges it; an execute starts the image. */
    method Handle(p: Packet) returns (r: Reply)
      requires memory.Length >= NUMBERS * BLOCK && (p.Load? ==> p.blk < NUMBERS && |p.data| == BLOCK)
      modifies this, memory
      ensures p.Load? ==> memory[..] == Write(old(memory[..]), p.blk * BLOCK, p.data) && r == Reply(Ack(p.blk))
      ensures !p.Load? ==> memory[..] == old(memory[..]) && r == NoReply
      ensures running == (old(running) || p.Exec?)
    {
      r := NoReply;
      if p.Load? {
        var addr, i := p.blk * BLOCK, 0;
        ghost var was := memory[..];
        while i < BLOCK
          invariant 0 <= i <= BLOCK && running == old(running)
          invariant forall k :: 0 <= k < memory.Length ==> memory[k] == if addr <= k < addr + i then p.data[k - addr]
            else was[k]
        {
          memory[addr + i] := p.data[i];
          i := i + 1;
        }
        assert memory[..] == Write(was, addr, p.data);
        r := Reply(Ack(p.blk));
      } else if p.Exec? {
        running := true;
      }
    }
  }

  /** The sender: it numbers the blocks with sixteen bits, and repeats one until its own number comes back. */
  class Sender {
    const file: seq<Byte>
    var i: nat
    var mode: Mode
    var buffer: seq<Byte>

    constructor (file: seq<Byte>, buffer: seq<Byte>)
      requires |buffer| == BLOCK
      ensures this.file == file && i == 0 && mode == Reading && this.buffer == buffer
    {
      this.file, this.buffer, i, mode := file, buffer, 0, Reading;
    }

    method ReadAndSend(ghost s: State) returns (p: Packet)
      requires mode == Reading && i <= Blocks(file) && Sized(s) && s == State(i, mode, buffer, s.net, s.memory)
      modifies this
      ensures Apply(s, ReadNext, file) == State(i, mode, buffer, s.net + {p}, s.memory)
    {
      var n := if |file| < i * BLOCK then 0 else if |file| - i * BLOCK < BLOCK then |file| - i * BLOCK else BLOCK;
      assert n > 0 <==> i < Blocks(file);
      if n > 0 {
        assert file[i * BLOCK..i * BLOCK + n] == PartAt(file, i);
        buffer := file[i * BLOCK..i * BLOCK + n] + buffer[n..];
        p := Load(i % NUMBERS, buffer);
        mode := Awaiting;
      } else {
        p := Exec;
        mode := Done;
      }
    }

    /** Nothing came for a second: the block goes out again, as it was. */
    method TimedOut(ghost s: State) returns (p: Packet)
      requires mode == Awaiting && Sized(s) && s == State(i, mode, buffer, s.net, s.memory)
      ensures p == Load(i % NUMBERS, buffer) && Apply(s, Retry, file) == State(i, mode, buffer, s.net + {p}, s.memory)
    {
      p := Load(i % NUMBERS, buffer);
    }

    method Receive(got: Packet, ghost s: State) returns (p: Reply)
      requires mode == Awaiting && Sized(s) && s == State(i, mode, buffer, s.net, s.memory) && got in s.net
      modifies this
      ensures Apply(s, SenderGets(got), file)
        == State(i, mode, buffer, s.net + (if p.Reply? then {p.p} else {}), s.memory)
    {
      if got == Ack(i % NUMBERS) {
        i, mode := i + 1, Reading;
        p := NoReply;
        assert s.net + {} == s.net;
      } else {
        p := Reply(Load(i % NUMBERS, buffer));
      }
    }
  }
}
