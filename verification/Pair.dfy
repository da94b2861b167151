/**
  A bufferevent pair (bufferevent_pair.c, bufferevent.c).  Each direction of a pair is a
  pipe from one side's output evbuffer to the other side's input evbuffer; the two
  directions share no state.  The evbuffers are those of EvBuffers.
 */
module Pairs {
  import opened Bytes
  import opened Chains
  import opened EvBuffers
  import opened BufferMoves

  /** Reasons for which a side is suspended (BEV_SUSPEND_*). */
  datatype Reason = Wm | Bw | BwGroup | Lookup | FilterRead

  /** A new buffer, frozen at its start or at its end. */
  method NewFrozen(atStart: bool) returns (b: EvBuffer)
    ensures fresh(b) && b.Valid() && b.Content() == [] && b.totalLen == 0
    ensures b.freezeStart == atStart && b.freezeEnd == !atStart
  {
    hide Flatten, Leads;
    b := new EvBuffer();
    b.freezeStart, b.freezeEnd := atStart, !atStart;
  }

  lemma NothingSent(input: seq<Byte>, output: seq<Byte>)
    requires input == [] && output == []
    ensures [] == [] + input + output
  {
  }

  /** One direction of a pair as a user sees it: the flags and suspend reasons of the writer and
      the reader, the reader's high watermark, the bytes that wait in the output and those
      that have arrived in the input. */
  datatype Flow = Flow(enWrite: bool, writeSusp: set<Reason>, enRead: bool, readSusp: set<Reason>, high: nat,
                       waiting: seq<Byte>, arrived: seq<Byte>)

  /** How many bytes be_pair_transfer hands over: up to the watermark, or all. */
  function Handed(f: Flow, ignoreWm: bool): (n: nat)
    ensures n <= |f.waiting|
  {
    if f.high > 0 && |f.arrived| < f.high then Min(f.high - |f.arrived|, |f.waiting|)
    else if f.high == 0 || ignoreWm then |f.waiting|
    else 0
  }

  function Moved(f: Flow, ignoreWm: bool): Flow {
    var n := Handed(f, ignoreWm);
    f.(waiting := f.waiting[n..], arrived := f.arrived + f.waiting[..n])
  }

  /** The reader is suspended for its watermark exactly while the input reaches it. */
  function Marked(f: Flow): Flow {
    f.(readSusp := if f.high > 0 && |f.arrived| >= f.high then f.readSusp + {Wm} else f.readSusp - {Wm})
  }

  function Transferred(f: Flow, ignoreWm: bool): Flow {
    Marked(Moved(f, ignoreWm))
  }

  /** What is waiting goes over if the reader takes it. */
  function Talked(f: Flow): Flow {
    if f.enWrite && f.enRead && f.readSusp == {} && f.waiting != [] then Transferred(f, false) else f
  }

  function Unsuspended(f: Flow, why: Reason): Flow {
    var g := f.(readSusp := f.readSusp - {why});
    if g.readSusp == {} && g.enRead then Talked(g) else g
  }

  /** The reader's watermark is looked at again: the input got shorter, or the mark moved. */
  function Rechecked(f: Flow): Flow {
    if f.high > 0 && |f.arrived| >= f.high then f.(readSusp := f.readSusp + {Wm}) else Unsuspended(f, Wm)
  }

  function WriteUnsuspended(f: Flow, why: Reason): Flow {
    var g := f.(writeSusp := f.writeSusp - {why});
    if g.writeSusp == {} && g.enWrite then Talked(g) else g
  }

  function ReadEnabled(f: Flow): Flow {
    var g := f.(enRead := true);
    if g.readSusp == {} then Talked(g) else g
  }

  function WriteEnabled(f: Flow): Flow {
    var g := f.(enWrite := true);
    if g.writeSusp == {} then Talked(g) else g
  }

  function Disabled(f: Flow, read: bool, write: bool): Flow {
    f.(enRead := f.enRead && !read, enWrite := f.enWrite && !write)
  }

  /** The bytes a read of len gets. */
  function Taken(f: Flow, len: nat): seq<Byte> {
    f.arrived[..Min(len, |f.arrived|)]
  }

  function AfterRead(f: Flow, len: nat): Flow {
    var g := f.(arrived := f.arrived[Min(len, |f.arrived|)..]);
    if g.high > 0 then Rechecked(g) else g
  }

  /** A transfer ends with nothing waiting, or with the input at its watermark and the reader
      suspended for it; it never fills the input past the watermark by itself. */
  lemma TransferEnds(f: Flow, ignoreWm: bool)
    ensures var g := Transferred(f, ignoreWm);
      && (g.waiting == [] || (g.high > 0 && |g.arrived| >= g.high && Wm in g.readSusp))
      && (g.high > 0 && !ignoreWm ==> |g.arrived| <= Max(|f.arrived|, g.high))
      && g.arrived + g.waiting == f.arrived + f.waiting && g.readSusp - {Wm} == f.readSusp - {Wm}
  {
  }

  class Pipe {
    /** The writer's output and the reader's input. */
    const output: EvBuffer
    const input: EvBuffer
    /** EV_WRITE and the suspend reasons of the writer; EV_READ and those of the reader. */
    var enWrite: bool
    var writeSusp: set<Reason>
    var enRead: bool
    var readSusp: set<Reason>
    /** The reader's high watermark for reading, 0 for none. */
    var high: nat
    /** All bytes ever written into the pipe and all bytes ever read from it. */
    ghost var written: seq<Byte>
    ghost var consumed: seq<Byte>

    /** The buffers between calls: the output frozen at its start, the input at its end. */
    ghost predicate Buffers()
      reads output, input
    {
      && output != input && output.Valid() && input.Valid()
      && output.freezeStart && !output.freezeEnd && input.freezeEnd && !input.freezeStart
      && output.totalLen + input.totalLen <= SIZE_MAX
    }

    ghost function View(): Flow
      requires Buffers()
      reads this, output, input
    {
      Flow(enWrite, writeSusp, enRead, readSusp, high, output.Content(), input.Content())
    }

    lemma Sizes()
      requires Buffers()
      ensures |View().waiting| == output.totalLen && |View().arrived| == input.totalLen
    {
      hide Flatten, AllOk, Layout;
    }

    /** No byte is lost, added or reordered. */
    ghost predicate Conserved()
      reads this`written, this`consumed, output, input
      requires Buffers()
    {
      written == consumed + input.Content() + output.Content()
    }

    /** The reader is suspended for its watermark exactly while the input reaches it. */
    ghost predicate WmOk()
      reads this, output, input
    {
      Wm in readSusp <==> high > 0 && input.totalLen >= high
    }

    ghost predicate Sound()
      reads this, output, input
    {
      Buffers() && Conserved() && WmOk()
    }

    /** Nothing waits in the output when both sides are willing. */
    ghost predicate NotStuck()
      reads this, output
    {
      enWrite && writeSusp == {} && enRead && readSusp == {} ==> output.totalLen == 0
    }

    ghost predicate Valid()
      reads this, output, input
    {
      Sound() && NotStuck()
    }

    /** One direction of bufferevent_pair_new: sides start with EV_WRITE enabled. */
    constructor ()
      ensures Valid() && fresh(output) && fresh(input) && written == [] && consumed == []
      ensures View() == Flow(true, {}, false, {}, 0, [], [])
    {
      hide EvBuffer.Content, Flatten, Leads, AllOk, Layout;
      var o := NewFrozen(true);
      var i := NewFrozen(false);
      output, input := o, i;
      enWrite, writeSusp, enRead, readSusp, high := true, {}, false, {}, 0;
      written, consumed := [], [];
      new;
      NothingSent(input.Content(), output.Content());
      assert Buffers();
    }

    /** be_pair_wants_to_talk */
    predicate WantsToTalk()
      reads this, output
    {
      enWrite && enRead && readSusp == {} && output.totalLen > 0
    }

    /** The bytes be_pair_transfer moves, between unfreezing and freezing the buffers. */
    method Move(ignoreWm: bool)
      requires Buffers() && Conserved()
      modifies output, input
      ensures Buffers() && Conserved() && View() == Moved(old(View()), ignoreWm)
    {
      hide Flatten, Leads, AllOk, Layout;
      output.freezeStart := false;
      input.freezeEnd := false;
      ghost var i, o := input.Content(), output.Content();
      if high > 0 && input.totalLen < high {
        var moved := RemoveBuffer(output, input, high - input.totalLen);
        CutAssoc(consumed, i, o, moved);
      } else if high == 0 || ignoreWm {
        var ok := AddBuffer(input, output);
        CutAssoc(consumed, i, o, |o|);
        assert o[..|o|] == o && o[|o|..] == [];
      } else {
        assert i + o[..0] == i && o[0..] == o;
      }
      output.freezeStart := true;
      input.freezeEnd := true;
    }

    /** be_pair_transfer, with the watermark callback of the input it causes.  When that
        callback unsuspends the reader nothing is left to transfer, so it goes no
        further. */
    method Transfer(ignoreWm: bool)
      requires Buffers() && Conserved()
      modifies this`readSusp, output, input
      ensures Sound() && View() == Transferred(old(View()), ignoreWm)
    {
      hide EvBuffer.Content, EvBuffer.Valid, Pipe.Conserved, Moved;
      Move(ignoreWm);
      Sizes();
      if high > 0 && input.totalLen >= high {
        readSusp := readSusp + {Wm};
      } else {
        readSusp := readSusp - {Wm};
      }
    }

    /** be_pair_enable and be_pair_outbuf_cb: hand over what is waiting if the reader
        takes it. */
    method Talk()
      requires Sound()
      modifies this`readSusp, output, input
      ensures Valid() && View() == Talked(old(View()))
    {
      hide EvBuffer.Content, EvBuffer.Valid, Pipe.Conserved;
      Sizes();
      if WantsToTalk() {
        TransferEnds(View(), false);
        Transfer(false);
        Sizes();
      }
    }

    /** bufferevent_write: evbuffer_add on the output, and its callback. */
    method Write(data: seq<Byte>)
      requires Valid() && output.totalLen + input.totalLen + |data| <= SIZE_MAX
      modifies this`readSusp, this`written, output, input
      ensures Valid() && written == old(written) + data
      ensures View() == Talked(old(View()).(waiting := old(View()).waiting + data))
    {
      hide Flatten, Leads, AllOk, Layout;
      ghost var i, o := input.Content(), output.Content();
      var ok := output.Add(data);
      written := written + data;
      AddAssoc(consumed, i, o, data);
      Talk();
    }

    /** bufferevent_suspend_read_ and bufferevent_suspend_write_ */
    method SuspendRead(why: Reason)
      requires Valid() && why != Wm
      modifies this`readSusp
      ensures Valid() && View() == old(View()).(readSusp := old(View()).readSusp + {why})
    {
      readSusp := readSusp + {why};
    }

    method SuspendWrite(why: Reason)
      requires Valid()
      modifies this`writeSusp
      ensures Valid() && View() == old(View()).(writeSusp := old(View()).writeSusp + {why})
    {
      writeSusp := writeSusp + {why};
    }

    /** bufferevent_unsuspend_read_: the last reason gone, be_pair_enable(EV_READ). */
    method UnsuspendRead(why: Reason)
      requires Buffers() && Conserved() && (Wm in readSusp - {why} <==> high > 0 && input.totalLen >= high)
      requires why != Wm ==> NotStuck()
      modifies this`readSusp, output, input
      ensures Valid() && View() == Unsuspended(old(View()), why)
    {
      hide EvBuffer.Content, EvBuffer.Valid, Pipe.Conserved;
      readSusp := readSusp - {why};
      if readSusp == {} && enRead {
        Talk();
      }
    }

    method UnsuspendWrite(why: Reason)
      requires Valid()
      modifies this`writeSusp, this`readSusp, output, input
      ensures Valid() && View() == WriteUnsuspended(old(View()), why)
    {
      hide EvBuffer.Content, EvBuffer.Valid, Pipe.Conserved;
      writeSusp := writeSusp - {why};
      if writeSusp == {} && enWrite {
        Talk();
      }
    }

    /** bufferevent_enable and bufferevent_disable for each flag. */
    method EnableRead()
      requires Valid()
      modifies this`enRead, this`readSusp, output, input
      ensures Valid() && View() == ReadEnabled(old(View()))
    {
      hide EvBuffer.Content, EvBuffer.Valid, Pipe.Conserved;
      enRead := true;
      if readSusp == {} {
        Talk();
      }
    }

    method EnableWrite()
      requires Valid()
      modifies this`enWrite, this`readSusp, output, input
      ensures Valid() && View() == WriteEnabled(old(View()))
    {
      hide EvBuffer.Content, EvBuffer.Valid, Pipe.Conserved;
      enWrite := true;
      if writeSusp == {} {
        Talk();
      }
    }

    method Disable(read: bool, write: bool)
      requires Valid()
      modifies this`enRead, this`enWrite
      ensures Valid() && View() == Disabled(old(View()), read, write)
    {
      enRead, enWrite := enRead && !read, enWrite && !write;
    }

    /** bufferevent_inbuf_wm_cb after the input got shorter. */
    method InputDrained()
      requires Buffers() && Conserved() && NotStuck()
      requires high == 0 ==> Wm !in readSusp
      modifies this`readSusp, output, input
      ensures Valid() && View() == if high > 0 then Rechecked(old(View())) else old(View())
    {
      hide EvBuffer.Content, EvBuffer.Valid, Pipe.Conserved, Unsuspended;
      Sizes();
      if high > 0 {
        if input.totalLen >= high {
          readSusp := readSusp + {Wm};
        } else {
          UnsuspendRead(Wm);
        }
      }
    }

    /** bufferevent_read: evbuffer_remove on the input, and its callback. */
    method Read(len: nat) returns (data: seq<Byte>)
      requires Valid()
      modifies this`readSusp, this`consumed, output, input
      ensures Valid() && consumed == old(consumed) + data
      ensures data == Taken(old(View()), len) && View() == AfterRead(old(View()), len)
    {
      hide Flatten, Leads, AllOk, Layout, Rechecked;
      ghost var i, o := input.Content(), output.Content();
      var n;
      n, data := input.Remove(len);
      consumed := consumed + data;
      ReadAssoc(old(consumed), data, input.Content(), o);
      InputDrained();
    }

    /** bufferevent_setwatermark for EV_READ. */
    method SetHigh(mark: nat)
      requires Valid()
      modifies this`high, this`readSusp, output, input
      ensures Valid() && View() == Rechecked(old(View()).(high := mark))
    {
      hide EvBuffer.Content, EvBuffer.Valid, Pipe.Conserved, Unsuspended;
      high := mark;
      Sizes();
      if mark > 0 && input.totalLen >= mark {
        readSusp := readSusp + {Wm};
      } else {
        UnsuspendRead(Wm);
      }
    }

    /** be_pair_flush in one direction, when the mode is not BEV_NORMAL. */
    method Flush()
      requires Valid()
      modifies this`readSusp, output, input
      ensures Valid() && View() == Transferred(old(View()), true)
    {
      hide EvBuffer.Content, EvBuffer.Valid, Pipe.Conserved;
      TransferEnds(View(), true);
      Transfer(true);
      Sizes();
    }
  }


  lemma CutAssoc(c: seq<Byte>, i: seq<Byte>, o: seq<Byte>, n: int)
    requires n <= |o|
    ensures n >= 0 ==> c + (i + o[..n]) + o[n..] == c + i + o
  {
  }

  lemma AddAssoc(c: seq<Byte>, i: seq<Byte>, o: seq<Byte>, d: seq<Byte>)
    ensures c + i + (o + d) == c + i + o + d
  {
  }

  lemma ReadAssoc(c: seq<Byte>, d: seq<Byte>, i: seq<Byte>, o: seq<Byte>)
    ensures c + (d + i) + o == c + d + i + o
  {
  }

  // ------------------------------------------------------------ whole runs

  /** A call on one of the two bufferevents of a pair. */
  datatype Op =
    | OpWrite(data: seq<Byte>)
    | OpRead(len: nat)
    | OpEnable(read: bool, write: bool)
    | OpDisable(read: bool, write: bool)
    | OpHigh(mark: nat)
    | OpSuspend(read: bool, why: Reason)
    | OpUnsuspend(read: bool, why: Reason)
    | OpFlush(read: bool, write: bool)

  /** The two directions of a pair have buffers of their own. */
  ghost predicate Apart(out: Pipe, inn: Pipe) {
    && out != inn && out.output != inn.output && out.output != inn.input
    && out.input != inn.output && out.input != inn.input
  }

  predicate HasRoom(f: Flow, n: nat) {
    |f.waiting| + |f.arrived| + n <= SIZE_MAX
  }

  /** A call seen from the direction its bufferevent writes to. */
  function StepOut(f: Flow, op: Op): Flow {
    match op
    case OpWrite(data) => if HasRoom(f, |data|) then Talked(f.(waiting := f.waiting + data)) else f
    case OpEnable(_, write) => if write then WriteEnabled(f) else f
    case OpDisable(_, write) => Disabled(f, false, write)
    case OpSuspend(read, why) => if read then f else f.(writeSusp := f.writeSusp + {why})
    case OpUnsuspend(read, why) => if read then f else WriteUnsuspended(f, why)
    case OpFlush(_, write) => if write then Transferred(f, true) else f
    case _ => f
  }

  /** A call seen from the direction its bufferevent reads from. */
  function StepIn(f: Flow, op: Op): Flow {
    match op
    case OpRead(len) => AfterRead(f, len)
    case OpEnable(read, _) => if read then ReadEnabled(f) else f
    case OpDisable(read, _) => Disabled(f, read, false)
    case OpHigh(mark) => Rechecked(f.(high := mark))
    case OpSuspend(read, why) => if read && why != Wm then f.(readSusp := f.readSusp + {why}) else f
    case OpUnsuspend(read, why) => if read && why != Wm then Unsuspended(f, why) else f
    case OpFlush(read, _) => if read then Transferred(f, true) else f
    case _ => f
  }

  /** What a call writes, and what it reads. */
  function Wrote(f: Flow, op: Op): seq<Byte> {
    if op.OpWrite? && HasRoom(f, |op.data|) then op.data else []
  }

  function Got(f: Flow, op: Op): seq<Byte> {
    if op.OpRead? then Taken(f, op.len) else []
  }

  method UnsuspendOther(p: Pipe, why: Reason)
    requires p.Valid() && why != Wm
    modifies p`readSusp, p.output, p.input
    ensures p.Valid() && p.View() == Unsuspended(old(p.View()), why)
  {
    hide EvBuffer.Content, EvBuffer.Valid, Unsuspended;
    p.UnsuspendRead(why);
  }

  /** One call on the bufferevent that writes to out and reads from inn. */
  method RunOne(out: Pipe, inn: Pipe, op: Op) returns (got: seq<Byte>)
    requires out.Valid() && inn.Valid() && Apart(out, inn)
    modifies out, out.output, out.input, inn, inn.output, inn.input
    ensures out.Valid() && inn.Valid()
    ensures out.View() == StepOut(old(out.View()), op) && inn.View() == StepIn(old(inn.View()), op)
    ensures out.consumed == old(out.consumed) && inn.written == old(inn.written)
    ensures got == Got(old(inn.View()), op) && inn.consumed == old(inn.consumed) + got
    ensures out.written == old(out.written) + Wrote(old(out.View()), op)
  {
    hide EvBuffer.Content, EvBuffer.Valid, Pipe.Valid, Pipe.Buffers, Pipe.View;
    hide Talked, Transferred, Unsuspended, WriteUnsuspended, ReadEnabled, WriteEnabled, Disabled, Rechecked, AfterRead, Taken;
    got := [];
    PipeMeans(out);
    PipeMeans(inn);
    out.Sizes();
    assert inn.consumed == inn.consumed + [] && out.written == out.written + [];
    match op {
      case OpWrite(data) =>
        if out.output.totalLen + out.input.totalLen + |data| <= SIZE_MAX {
          out.Write(data);
        }
      case OpRead(len) =>
        got := inn.Read(len);
      case OpEnable(read, write) =>
        if read {
          inn.EnableRead();
        }
        if write {
          out.EnableWrite();
        }
      case OpDisable(read, write) =>
        inn.Disable(read, false);
        out.Disable(false, write);
      case OpHigh(mark) =>
        inn.SetHigh(mark);
      case OpSuspend(read, why) =>
        if !read {
          out.SuspendWrite(why);
        } else if why != Wm {
          inn.SuspendRead(why);
        }
      case OpUnsuspend(read, why) =>
        if !read {
          out.UnsuspendWrite(why);
        } else if why != Wm {
          UnsuspendOther(inn, why);
        }
      case OpFlush(read, write) =>
        if read {
          inn.Flush();
        }
        if write {
          out.Flush();
        }
    }
  }

  /** The direction from one side after a run of calls on both; a call is on the first side
      if its flag is set. */
  function FlowAfter(ops: seq<(bool, Op)>, side: bool): Flow {
    if ops == [] then Flow(true, {}, false, {}, 0, [], [])
    else
      var f, op := FlowAfter(ops[..|ops| - 1], side), ops[|ops| - 1];
      if op.0 == side then StepOut(f, op.1) else StepIn(f, op.1)
  }

  /** All that the side wrote, and all that the other side read of it. */
  function AllWritten(ops: seq<(bool, Op)>, side: bool): seq<Byte> {
    if ops == [] then []
    else
      var rest, op := ops[..|ops| - 1], ops[|ops| - 1];
      AllWritten(rest, side) + if op.0 == side then Wrote(FlowAfter(rest, side), op.1) else []
  }

  function AllRead(ops: seq<(bool, Op)>, side: bool): seq<Byte> {
    if ops == [] then []
    else
      var rest, op := ops[..|ops| - 1], ops[|ops| - 1];
      AllRead(rest, side) + if op.0 == side then [] else Got(FlowAfter(rest, side), op.1)
  }

  ghost predicate Follows(p: Pipe, ops: seq<(bool, Op)>, side: bool)
    reads p, p.output, p.input
  {
    p.Buffers() && p.View() == FlowAfter(ops, side) && p.written == AllWritten(ops, side) && p.consumed == AllRead(ops, side)
  }

  lemma NoneYet(ops: seq<(bool, Op)>, side: bool)
    ensures FlowAfter(ops[..0], side) == Flow(true, {}, false, {}, 0, [], [])
    ensures AllWritten(ops[..0], side) == [] && AllRead(ops[..0], side) == []
  {
  }

  lemma OneMore(ops: seq<(bool, Op)>, i: nat, side: bool)
    requires i < |ops|
    ensures var f, op := FlowAfter(ops[..i], side), ops[i];
      && FlowAfter(ops[..i + 1], side) == (if op.0 == side then StepOut(f, op.1) else StepIn(f, op.1))
      && AllWritten(ops[..i + 1], side) == AllWritten(ops[..i], side) + (if op.0 == side then Wrote(f, op.1) else [])
      && AllRead(ops[..i + 1], side) == AllRead(ops[..i], side) + (if op.0 == side then [] else Got(f, op.1))
  {
    hide StepOut, StepIn, Wrote, Got;
    assert ops[..i + 1][..i] == ops[..i];
  }

  /** Any run of calls on both sides of a pair: each direction is as the simple machine says.
      What was written is what was read, followed by what waits in the reader's input,
      followed by what waits in the writer's output; and nothing waits in the output of a
      willing writer with a willing reader. */
  method Run(ops: seq<(bool, Op)>) returns (ab: Pipe, ba: Pipe)
    ensures ab.Valid() && ba.Valid() && Follows(ab, ops, true) && Follows(ba, ops, false)
    ensures forall side :: AllWritten(ops, side) == AllRead(ops, side) + FlowAfter(ops, side).arrived + FlowAfter(ops, side).waiting
    ensures ab.NotStuck() && ba.NotStuck()
  {
    hide EvBuffer.Content, EvBuffer.Valid, Pipe.Valid, Pipe.Buffers, Pipe.View, StepOut, StepIn, Wrote, Got, FlowAfter, AllWritten, AllRead;
    ab := new Pipe();
    ba := new Pipe();
    NoneYet(ops, true);
    NoneYet(ops, false);
    PipeMeans(ab);
    PipeMeans(ba);
    for i := 0 to |ops|
      invariant ab.Valid() && ba.Valid() && Apart(ab, ba)
      invariant Follows(ab, ops[..i], true) && Follows(ba, ops[..i], false)
      invariant fresh(ab) && fresh(ab.output) && fresh(ab.input) && fresh(ba) && fresh(ba.output) && fresh(ba.input)
    {
      OneMore(ops, i, true);
      OneMore(ops, i, false);
      if ops[i].0 {
        var got := RunOne(ab, ba, ops[i].1);
      } else {
        var got := RunOne(ba, ab, ops[i].1);
      }
      PipeMeans(ab);
      PipeMeans(ba);
    }
    assert ops[..|ops|] == ops;
    PipeMeans(ab);
    PipeMeans(ba);
  }

  lemma PipeMeans(p: Pipe)
    requires p.Valid()
    ensures p.Buffers() && p.written == p.consumed + p.View().arrived + p.View().waiting && p.NotStuck()
  {
    hide EvBuffer.Content, EvBuffer.Valid;
  }
}
