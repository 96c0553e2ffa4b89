/**
 The call-frame tracer of `src/tracing.rs`: a stack machine that turns the
 stream of frame hooks into a tree of `CallTrace`s.  The machine is shown to be
 the image of a parser that loses nothing but surplus exits.
 */
module CallTracing {
  import opened Words

  // ----- What the hooks are given -----

  datatype CallScheme = SchemeCall | SchemeCallCode | SchemeDelegateCall | SchemeStaticCall
  datatype CreateScheme = SchemeCreate | SchemeCreate2(salt: Word) | SchemeCustom(address: Address)
  datatype CallInput = Owned(bytes: Bytes) | SharedBuffer(start: nat, end: nat)

  /** How an interpreter result is classified by `is_ok` and `is_revert`. */
  datatype InstructionResult = IsOk | IsRevert | IsError

  datatype Enter =
    | Call(scheme: CallScheme, caller: Address, target: Address, value: Word, input: CallInput)
    | Create(createScheme: CreateScheme, caller: Address, value: Word, initCode: Bytes)

  datatype Exit =
    | CallEnd(result: InstructionResult, gasSpent: nat, output: Bytes)
    | CreateEnd(result: InstructionResult, gasSpent: nat, output: Bytes, created: Option<Address>)

  datatype Event = Entering(enter: Enter) | Exiting(exit: Exit)

  // ----- What the tracer records -----

  datatype CallKind = KindCall | KindStaticCall | KindDelegateCall | KindCallCode | KindCreate | KindCreate2
  datatype CallStatus = Success | Revert | Halt

  datatype CallTrace = CallTrace(kind: CallKind, from: Address, callee: Address, value: Word, input: Bytes,
                                 gasUsed: nat, output: Bytes, status: CallStatus, depth: nat, subcalls: seq<CallTrace>)

  datatype PendingFrame = PendingFrame(kind: CallKind, from: Address, callee: Address, value: Word, input: Bytes,
                                       depth: nat, subcalls: seq<CallTrace>)

  datatype Tracer = Tracer(stack: seq<PendingFrame>, root: Option<CallTrace>)

  const IDLE := Tracer([], None)

  function KindOf(enter: Enter): CallKind {
    match enter
    case Call(SchemeCall, _, _, _, _) => KindCall
    case Call(SchemeCallCode, _, _, _, _) => KindCallCode
    case Call(SchemeDelegateCall, _, _, _, _) => KindDelegateCall
    case Call(SchemeStaticCall, _, _, _, _) => KindStaticCall
    case Create(SchemeCreate2(_), _, _, _) => KindCreate2
    case Create(_, _, _, _) => KindCreate
  }

  function StatusOf(result: InstructionResult): CallStatus {
    match result
    case IsOk => Success
    case IsRevert => Revert
    case IsError => Halt
  }

  /** Shared-memory calldata cannot be resolved and is recorded as empty. */
  function InputOf(enter: Enter): Bytes {
    match enter
    case Call(_, _, _, _, Owned(bytes)) => bytes
    case Call(_, _, _, _, SharedBuffer(_, _)) => []
    case Create(_, _, _, initCode) => initCode
  }

  /** The zero address stands in for a contract that does not exist yet. */
  function TargetOf(enter: Enter): Address {
    match enter
    case Call(_, _, target, _, _) => target
    case Create(_, _, _, _) => 0
  }

  function CalleeOf(target: Address, exit: Exit): Address {
    match exit
    case CreateEnd(_, _, _, Some(created)) => created
    case _ => target
  }

  function Opened(enter: Enter, depth: nat, subcalls: seq<CallTrace>): PendingFrame {
    PendingFrame(KindOf(enter), enter.caller, TargetOf(enter), enter.value, InputOf(enter), depth, subcalls)
  }

  function Closed(p: PendingFrame, exit: Exit): CallTrace {
    CallTrace(p.kind, p.from, CalleeOf(p.callee, exit), p.value, p.input, exit.gasSpent, exit.output,
              StatusOf(exit.result), p.depth, p.subcalls)
  }

  /** A finished frame goes to the innermost open one, or becomes the root. */
  function Attach(s: Tracer, t: CallTrace): Tracer {
    if s.stack == [] then Tracer([], Some(t))
    else
      var n := |s.stack| - 1;
      s.(stack := s.stack[n := s.stack[n].(subcalls := s.stack[n].subcalls + [t])])
  }

  function Step(s: Tracer, e: Event): Tracer {
    match e
    case Entering(enter) => s.(stack := s.stack + [Opened(enter, |s.stack|, [])])
    case Exiting(exit) =>
      if s.stack == [] then s
      else
        var n := |s.stack| - 1;
        Attach(s.(stack := s.stack[..n]), Closed(s.stack[n], exit))
  }

  function Run(s: Tracer, es: seq<Event>): Tracer {
    if es == [] then s else Step(Run(s, es[..|es| - 1]), es[|es| - 1])
  }

  lemma {:induction false} RunAppend(s: Tracer, a: seq<Event>, b: seq<Event>)
    ensures Run(s, a + b) == Run(Run(s, a), b)
  {
    if b == [] {
      assert a + b == a;
    } else {
      SplitLast(a, b);
      RunAppend(s, a, b[..|b| - 1]);
      assert (a + b)[..|a + b| - 1] == a + b[..|b| - 1];
    }
  }

  lemma RunOne(s: Tracer, e: Event)
    ensures Run(s, [e]) == Step(s, e)
  {
    assert [e][..0] == [];
    assert Run(s, []) == s;
  }

  // ----- The class -----

  class CallTracer {
    var stack: seq<PendingFrame>
    var root: Option<CallTrace>

    ghost function State(): Tracer
      reads this
    {
      Tracer(stack, root)
    }

    constructor ()
      ensures State() == IDLE
    {
      stack, root := [], None;
    }

    method PushFrame(kind: CallKind, from: Address, callee: Address, value: Word, input: Bytes)
      modifies this`stack
      ensures stack == old(stack) + [PendingFrame(kind, from, callee, value, input, |old(stack)|, [])]
    {
      var depth := |stack|;
      stack := stack + [PendingFrame(kind, from, callee, value, input, depth, [])];
    }

    method PopFrame(gasUsed: nat, output: Bytes, status: CallStatus, calleeOverride: Option<Address>)
      modifies this
      ensures old(stack) == [] ==> State() == old(State())
      ensures old(stack) != [] ==>
                var p := old(stack)[|old(stack)| - 1];
                var callee := if calleeOverride.Some? then calleeOverride.value else p.callee;
                State() == Attach(Tracer(old(stack)[..|old(stack)| - 1], old(root)),
                                  CallTrace(p.kind, p.from, callee, p.value, p.input, gasUsed, output, status, p.depth,
                                            p.subcalls))
    {
      if stack == [] {
        return;
      }
      var n := |stack| - 1;
      var pending := stack[n];
      stack := stack[..n];
      var callee := if calleeOverride.Some? then calleeOverride.value else pending.callee;
      var trace := CallTrace(pending.kind, pending.from, callee, pending.value, pending.input, gasUsed, output, status,
                             pending.depth, pending.subcalls);
      if n > 0 {
        stack := stack[n - 1 := stack[n - 1].(subcalls := stack[n - 1].subcalls + [trace])];
      } else {
        root := Some(trace);
      }
    }

    /** The `call` hook. */
    method OnCall(scheme: CallScheme, caller: Address, target: Address, value: Word, input: CallInput)
      modifies this`stack
      ensures State() == Step(old(State()), Entering(Call(scheme, caller, target, value, input)))
    {
      var kind := match scheme
        case SchemeCall => KindCall
        case SchemeCallCode => KindCallCode
        case SchemeDelegateCall => KindDelegateCall
        case SchemeStaticCall => KindStaticCall;
      var resolved := match input case Owned(bytes) => bytes case SharedBuffer(_, _) => [];
      PushFrame(kind, caller, target, value, resolved);
    }

    /** The `call_end` hook. */
    method OnCallEnd(result: InstructionResult, gasSpent: nat, output: Bytes)
      modifies this
      ensures State() == Step(old(State()), Exiting(CallEnd(result, gasSpent, output)))
      ensures old(stack) != [] ==> Leaves(State(), old(stack)[|old(stack)| - 1].callee, result, gasSpent, output)
    {
      ghost var before := State();
      if stack != [] {
        ExitRecords(before, CallEnd(result, gasSpent, output));
      }
      PopFrame(gasSpent, output, StatusOf(result), None);
    }

    /** The `create` hook: the address is not known yet. */
    method OnCreate(scheme: CreateScheme, caller: Address, value: Word, initCode: Bytes)
      modifies this`stack
      ensures State() == Step(old(State()), Entering(Create(scheme, caller, value, initCode)))
    {
      PushFrame(if scheme.SchemeCreate2? then KindCreate2 else KindCreate, caller, 0, value, initCode);
    }

    /** The `create_end` hook. */
    method OnCreateEnd(result: InstructionResult, gasSpent: nat, output: Bytes, created: Option<Address>)
      modifies this
      ensures State() == Step(old(State()), Exiting(CreateEnd(result, gasSpent, output, created)))
      ensures old(stack) != [] ==>
                Leaves(State(), if created.Some? then created.value else old(stack)[|old(stack)| - 1].callee,
                       result, gasSpent, output)
    {
      ghost var before := State();
      if stack != [] {
        ExitRecords(before, CreateEnd(result, gasSpent, output, created));
      }
      PopFrame(gasSpent, output, StatusOf(result), created);
    }
  }

  // ----- Execution trees, their events and their traces -----

  /** One frame as the interpreter runs it: entered, its calls, left. */
  datatype Frame = Frame(enter: Enter, calls: seq<Frame>, exit: Exit)

  function Events(f: Frame): seq<Event> {
    [Entering(f.enter)] + EventsAll(f.calls) + [Exiting(f.exit)]
  }

  function EventsAll(fs: seq<Frame>): seq<Event> {
    if fs == [] then [] else EventsAll(fs[..|fs| - 1]) + Events(fs[|fs| - 1])
  }

  /** The trace a frame deserves at a given depth. */
  function Trace(f: Frame, depth: nat): CallTrace {
    Closed(Opened(f.enter, depth, TraceAll(f.calls, depth + 1)), f.exit)
  }

  function TraceAll(fs: seq<Frame>, depth: nat): (ts: seq<CallTrace>)
    ensures |ts| == |fs|
  {
    if fs == [] then [] else TraceAll(fs[..|fs| - 1], depth) + [Trace(fs[|fs| - 1], depth)]
  }

  // ----- What a trace says, field by field -----

  /** The kind recorded for the opcode that opened a frame. */
  ghost predicate HasKind(kind: CallKind, enter: Enter) {
    && (kind == KindCall <==> enter.Call? && enter.scheme == SchemeCall)
    && (kind == KindCallCode <==> enter.Call? && enter.scheme == SchemeCallCode)
    && (kind == KindDelegateCall <==> enter.Call? && enter.scheme == SchemeDelegateCall)
    && (kind == KindStaticCall <==> enter.Call? && enter.scheme == SchemeStaticCall)
    && (kind == KindCreate2 <==> enter.Create? && enter.createScheme.SchemeCreate2?)
    && (kind == KindCreate <==> enter.Create? && !enter.createScheme.SchemeCreate2?)
  }

  /** The status recorded for an interpreter result. */
  ghost predicate HasStatus(status: CallStatus, result: InstructionResult) {
    && (status == Success <==> result == IsOk)
    && (status == Revert <==> result == IsRevert)
    && (status == Halt <==> result == IsError)
  }

  /** Calldata or init code, empty when it lies in shared memory. */
  ghost predicate HasInput(input: Bytes, enter: Enter) {
    && (enter.Create? ==> input == enter.initCode)
    && (enter.Call? && enter.input.Owned? ==> input == enter.input.bytes)
    && (enter.Call? && enter.input.SharedBuffer? ==> input == [])
  }

  /** The created contract if the exit names one, else the called account, else
      zero for a creation that produced none. */
  ghost predicate HasCallee(callee: Address, enter: Enter, exit: Exit) {
    if exit.CreateEnd? && exit.created.Some? then callee == exit.created.value
    else if enter.Call? then callee == enter.target
    else callee == 0
  }

  /** Every field of a frame's trace, in terms of what the hooks were given. */
  lemma TraceFields(f: Frame, depth: nat)
    ensures var t := Trace(f, depth);
            && HasKind(t.kind, f.enter) && t.from == f.enter.caller && HasCallee(t.callee, f.enter, f.exit)
            && t.value == f.enter.value && HasInput(t.input, f.enter)
            && t.gasUsed == f.exit.gasSpent && t.output == f.exit.output && HasStatus(t.status, f.exit.result)
            && t.depth == depth && |t.subcalls| == |f.calls|
            && forall i :: 0 <= i < |f.calls| ==> t.subcalls[i] == Trace(f.calls[i], depth + 1)
  {
    ChildTraces(f.calls, depth + 1);
  }

  lemma {:induction false} ChildTraces(fs: seq<Frame>, depth: nat)
    ensures forall i :: 0 <= i < |fs| ==> TraceAll(fs, depth)[i] == Trace(fs[i], depth)
    decreases |fs|
  {
    if fs == [] {
    } else {
      ChildTraces(fs[..|fs| - 1], depth);
    }
  }

  /** The frame finished last, in the top frame or as root. */
  function Newest(s: Tracer): Option<CallTrace> {
    if s.stack == [] then s.root
    else
      var calls := s.stack[|s.stack| - 1].subcalls;
      if calls == [] then None else Some(calls[|calls| - 1])
  }

  /** The frame finished last has this callee and outcome. */
  ghost predicate Leaves(s: Tracer, callee: Address, result: InstructionResult, gasSpent: nat, output: Bytes) {
    && Newest(s).Some?
    && var t := Newest(s).value;
       t.callee == callee && HasStatus(t.status, result) && t.gasUsed == gasSpent && t.output == output
  }

  /** Leaving a frame records it with the outcome it is given and the fields it was
      opened with, whatever the state. */
  lemma ExitRecords(s: Tracer, exit: Exit)
    requires s.stack != []
    ensures var p, after := s.stack[|s.stack| - 1], Step(s, Exiting(exit));
            && |after.stack| == |s.stack| - 1 && Newest(after).Some?
            && var t := Newest(after).value;
               && HasStatus(t.status, exit.result) && t.gasUsed == exit.gasSpent && t.output == exit.output
               && t.callee == (if exit.CreateEnd? && exit.created.Some? then exit.created.value else p.callee)
               && t.kind == p.kind && t.from == p.from && t.value == p.value && t.input == p.input
               && t.depth == p.depth && t.subcalls == p.subcalls
  {
  }

  /** Entering a frame opens it with what it is given, at the current depth. */
  lemma EnterOpens(s: Tracer, enter: Enter)
    ensures var after := Step(s, Entering(enter));
            && after.root == s.root && |after.stack| == |s.stack| + 1 && after.stack[..|s.stack|] == s.stack
            && var p := after.stack[|s.stack|];
               && HasKind(p.kind, enter) && p.from == enter.caller && p.value == enter.value
               && p.callee == (if enter.Call? then enter.target else 0)
               && HasInput(p.input, enter) && p.depth == |s.stack| && p.subcalls == []
  {
  }

  function AttachAll(s: Tracer, ts: seq<CallTrace>): Tracer {
    if ts == [] then s else Attach(AttachAll(s, ts[..|ts| - 1]), ts[|ts| - 1])
  }

  lemma {:induction false} AttachAllOpen(stack: seq<PendingFrame>, p: PendingFrame, root: Option<CallTrace>,
                                         ts: seq<CallTrace>)
    requires p.subcalls == []
    ensures AttachAll(Tracer(stack + [p], root), ts) == Tracer(stack + [p.(subcalls := ts)], root)
  {
    if ts != [] {
      var n := |ts| - 1;
      AttachAllOpen(stack, p, root, ts[..n]);
      var at := stack + [p.(subcalls := ts[..n])];
      assert ts[..n] + [ts[n]] == ts;
      assert at[|stack| := p.(subcalls := ts[..n] + [ts[n]])] == stack + [p.(subcalls := ts)];
    } else {
      assert p.(subcalls := ts) == p;
    }
  }

  lemma {:induction false} AttachAllHeight(s: Tracer, ts: seq<CallTrace>)
    ensures |AttachAll(s, ts).stack| == |s.stack|
  {
    if ts == [] {
    } else {
      AttachAllHeight(s, ts[..|ts| - 1]);
    }
  }

  /** From any state, the events of a frame attach exactly its trace. */
  lemma {:induction false} FrameRuns(s: Tracer, f: Frame)
    ensures Run(s, Events(f)) == Attach(s, Trace(f, |s.stack|))
    decreases f, 0
  {
    var started := Opened(f.enter, |s.stack|, []);
    var inside := Tracer(s.stack + [started], s.root);
    var body := EventsAll(f.calls);
    var ts := TraceAll(f.calls, |s.stack| + 1);
    RunOne(s, Entering(f.enter));
    RunAppend(s, [Entering(f.enter)], body);
    ForestRuns(inside, f.calls);
    AttachAllOpen(s.stack, started, s.root, ts);
    RunAppend(s, [Entering(f.enter)] + body, [Exiting(f.exit)]);
    ExitTop(s, started.(subcalls := ts), f.exit);
  }

  lemma ExitTop(s: Tracer, p: PendingFrame, exit: Exit)
    ensures Run(Tracer(s.stack + [p], s.root), [Exiting(exit)]) == Attach(s, Closed(p, exit))
  {
    var last := Tracer(s.stack + [p], s.root);
    RunOne(last, Exiting(exit));
    assert last.stack[..|s.stack|] == s.stack;
  }

  lemma {:induction false} ForestRuns(s: Tracer, fs: seq<Frame>)
    ensures Run(s, EventsAll(fs)) == AttachAll(s, TraceAll(fs, |s.stack|))
    decreases fs, 1
  {
    if fs == [] {
    } else {
      var n := |fs| - 1;
      ForestRuns(s, fs[..n]);
      var before := AttachAll(s, TraceAll(fs[..n], |s.stack|));
      AttachAllHeight(s, TraceAll(fs[..n], |s.stack|));
      FrameRuns(before, fs[n]);
      RunAppend(s, EventsAll(fs[..n]), Events(fs[n]));
      var ts := TraceAll(fs, |s.stack|);
      assert ts[..n] == TraceAll(fs[..n], |s.stack|) && ts[n] == Trace(fs[n], |s.stack|);
    }
  }

  // ----- Every event stream, balanced or not -----

  datatype OpenFrame = OpenFrame(enter: Enter, calls: seq<Frame>)

  /** Finished top-level frames, then the chain of frames still open. */
  datatype Parse = Parse(done: seq<Frame>, chain: seq<OpenFrame>)

  function Add(p: Parse, f: Frame): Parse {
    if p.chain == [] then p.(done := p.done + [f])
    else
      var n := |p.chain| - 1;
      p.(chain := p.chain[n := p.chain[n].(calls := p.chain[n].calls + [f])])
  }

  function ParseStep(p: Parse, e: Event): Parse {
    match e
    case Entering(enter) => p.(chain := p.chain + [OpenFrame(enter, [])])
    case Exiting(exit) =>
      if p.chain == [] then p
      else
        var n := |p.chain| - 1;
        Add(p.(chain := p.chain[..n]), Frame(p.chain[n].enter, p.chain[n].calls, exit))
  }

  function ParseFrom(p: Parse, es: seq<Event>): Parse {
    if es == [] then p else ParseStep(ParseFrom(p, es[..|es| - 1]), es[|es| - 1])
  }

  function ParseOf(es: seq<Event>): Parse {
    ParseFrom(Parse([], []), es)
  }

  function Print(p: Parse): seq<Event> {
    EventsAll(p.done) + PrintChain(p.chain)
  }

  function PrintChain(chain: seq<OpenFrame>): seq<Event> {
    if chain == [] then []
    else
      var n := |chain| - 1;
      PrintChain(chain[..n]) + ([Entering(chain[n].enter)] + EventsAll(chain[n].calls))
  }

  /** The tracer state a parse stands for. */
  function Image(p: Parse): Tracer {
    Tracer(Pending(p.chain), if p.done == [] then None else Some(Trace(p.done[|p.done| - 1], 0)))
  }

  function Pending(chain: seq<OpenFrame>): (stack: seq<PendingFrame>)
    ensures |stack| == |chain|
  {
    if chain == [] then []
    else
      var n := |chain| - 1;
      Pending(chain[..n]) + [Opened(chain[n].enter, n, TraceAll(chain[n].calls, n + 1))]
  }

  lemma PendingAppend(chain: seq<OpenFrame>, o: OpenFrame)
    ensures Pending(chain + [o]) == Pending(chain) + [Opened(o.enter, |chain|, TraceAll(o.calls, |chain| + 1))]
  {
    assert (chain + [o])[..|chain|] == chain;
  }

  lemma TraceAllAppend(fs: seq<Frame>, f: Frame, depth: nat)
    ensures TraceAll(fs + [f], depth) == TraceAll(fs, depth) + [Trace(f, depth)]
  {
    assert (fs + [f])[..|fs|] == fs;
  }

  lemma AttachToTop(front: seq<PendingFrame>, top: PendingFrame, root: Option<CallTrace>, t: CallTrace)
    ensures Attach(Tracer(front + [top], root), t) == Tracer(front + [top.(subcalls := top.subcalls + [t])], root)
  {
  }

  lemma AddSimulates(p: Parse, f: Frame)
    ensures Attach(Image(p), Trace(f, |p.chain|)) == Image(Add(p, f))
  {
    if p.chain != [] {
      var n := |p.chain| - 1;
      var front, o := p.chain[..n], p.chain[n];
      AddSimulatesOpen(p.done, front, o, f);
      assert p == Parse(p.done, front + [o]);
      assert Add(p, f).chain == front + [o.(calls := o.calls + [f])];
    }
  }

  lemma AddSimulatesOpen(done: seq<Frame>, front: seq<OpenFrame>, o: OpenFrame, f: Frame)
    ensures Attach(Image(Parse(done, front + [o])), Trace(f, |front| + 1))
         == Image(Parse(done, front + [o.(calls := o.calls + [f])]))
  {
    var n := |front|;
    PendingAppend(front, o);
    PendingAppend(front, o.(calls := o.calls + [f]));
    TraceAllAppend(o.calls, f, n + 1);
    AttachToTop(Pending(front), Opened(o.enter, n, TraceAll(o.calls, n + 1)), Image(Parse(done, [])).root,
                Trace(f, n + 1));
  }

  lemma StepSimulates(p: Parse, e: Event)
    ensures Step(Image(p), e) == Image(ParseStep(p, e))
  {
    match e
    case Entering(enter) =>
      PendingAppend(p.chain, OpenFrame(enter, []));
    case Exiting(exit) =>
      if p.chain != [] {
        var n := |p.chain| - 1;
        var o := p.chain[n];
        var rest := p.(chain := p.chain[..n]);
        PendingAppend(rest.chain, o);
        assert p.chain == rest.chain + [o];
        assert Pending(p.chain)[..n] == Pending(rest.chain);
        AddSimulates(rest, Frame(o.enter, o.calls, exit));
      }
  }

  /** Whatever the hooks are fed, the tracer holds the image of the parse. */
  lemma {:induction false} TracerParses(es: seq<Event>)
    ensures Run(IDLE, es) == Image(ParseOf(es))
  {
    if es == [] {
    } else {
      var n := |es| - 1;
      TracerParses(es[..n]);
      StepSimulates(ParseOf(es[..n]), es[n]);
    }
  }

  // ----- Parsing inverts printing -----

  lemma {:induction false} ParseAppend(p: Parse, a: seq<Event>, b: seq<Event>)
    ensures ParseFrom(p, a + b) == ParseFrom(ParseFrom(p, a), b)
  {
    if b == [] {
      assert a + b == a;
    } else {
      SplitLast(a, b);
      ParseAppend(p, a, b[..|b| - 1]);
      assert (a + b)[..|a + b| - 1] == a + b[..|b| - 1];
    }
  }

  lemma ParseOne(p: Parse, e: Event)
    ensures ParseFrom(p, [e]) == ParseStep(p, e)
  {
    assert [e][..0] == [];
    assert ParseFrom(p, []) == p;
  }

  function AddAll(p: Parse, fs: seq<Frame>): Parse {
    if fs == [] then p else Add(AddAll(p, fs[..|fs| - 1]), fs[|fs| - 1])
  }

  lemma {:induction false} AddAllOpen(done: seq<Frame>, chain: seq<OpenFrame>, enter: Enter, fs: seq<Frame>)
    ensures AddAll(Parse(done, chain + [OpenFrame(enter, [])]), fs) == Parse(done, chain + [OpenFrame(enter, fs)])
  {
    if fs == [] {
    } else {
      var n := |fs| - 1;
      AddAllOpen(done, chain, enter, fs[..n]);
      assert fs[..n] + [fs[n]] == fs;
      var at := chain + [OpenFrame(enter, fs[..n])];
      assert at[|chain| := OpenFrame(enter, fs)] == chain + [OpenFrame(enter, fs)];
    }
  }

  lemma {:induction false} AddAllDone(done: seq<Frame>, fs: seq<Frame>)
    ensures AddAll(Parse(done, []), fs) == Parse(done + fs, [])
  {
    if fs == [] {
      assert done + fs == done;
    } else {
      SplitLast(done, fs);
      AddAllDone(done, fs[..|fs| - 1]);
    }
  }

  lemma {:induction false} FrameParses(p: Parse, f: Frame)
    ensures ParseFrom(p, Events(f)) == Add(p, f)
    decreases f, 0
  {
    var enter, body := [Entering(f.enter)], EventsAll(f.calls);
    ParseAppend(p, enter, body);
    ParseOne(p, Entering(f.enter));
    ForestParses(Parse(p.done, p.chain + [OpenFrame(f.enter, [])]), f.calls);
    AddAllOpen(p.done, p.chain, f.enter, f.calls);
    ParseAppend(p, enter + body, [Exiting(f.exit)]);
    var last := Parse(p.done, p.chain + [OpenFrame(f.enter, f.calls)]);
    ParseOne(last, Exiting(f.exit));
    assert last.chain[..|p.chain|] == p.chain;
  }

  lemma {:induction false} ForestParses(p: Parse, fs: seq<Frame>)
    ensures ParseFrom(p, EventsAll(fs)) == AddAll(p, fs)
    decreases fs, 1
  {
    if fs == [] {
    } else {
      var n := |fs| - 1;
      ForestParses(p, fs[..n]);
      FrameParses(AddAll(p, fs[..n]), fs[n]);
      ParseAppend(p, EventsAll(fs[..n]), Events(fs[n]));
    }
  }

  lemma {:induction false} ChainParses(done: seq<Frame>, chain: seq<OpenFrame>)
    ensures ParseFrom(Parse(done, []), PrintChain(chain)) == Parse(done, chain)
  {
    if chain == [] {
    } else {
      var n := |chain| - 1;
      ChainParses(done, chain[..n]);
      ChainExtends(done, chain[..n], chain[n]);
      assert chain == chain[..n] + [chain[n]];
    }
  }

  lemma ChainExtends(done: seq<Frame>, front: seq<OpenFrame>, o: OpenFrame)
    requires ParseFrom(Parse(done, []), PrintChain(front)) == Parse(done, front)
    ensures ParseFrom(Parse(done, []), PrintChain(front + [o])) == Parse(done, front + [o])
  {
    PrintChainAppend(front, o);
    ParseAppend(Parse(done, []), PrintChain(front), [Entering(o.enter)] + EventsAll(o.calls));
    OpenParses(Parse(done, front), o);
  }

  lemma OpenParses(p: Parse, o: OpenFrame)
    ensures ParseFrom(p, [Entering(o.enter)] + EventsAll(o.calls)) == Parse(p.done, p.chain + [o])
  {
    ParseAppend(p, [Entering(o.enter)], EventsAll(o.calls));
    ParseOne(p, Entering(o.enter));
    ForestParses(Parse(p.done, p.chain + [OpenFrame(o.enter, [])]), o.calls);
    AddAllOpen(p.done, p.chain, o.enter, o.calls);
  }

  /** The stream determines the forest: every parse is recovered from its print. */
  lemma ParseOfPrint(p: Parse)
    ensures ParseOf(Print(p)) == p
  {
    ForestParses(Parse([], []), p.done);
    AddAllDone([], p.done);
    assert [] + p.done == p.done;
    ParseAppend(Parse([], []), EventsAll(p.done), PrintChain(p.chain));
    ChainParses(p.done, p.chain);
  }

  // ----- Printing inverts parsing, up to surplus exits -----

  /** Enters not yet matched by an exit; an exit with nothing open is surplus. */
  function Unmatched(es: seq<Event>): nat {
    if es == [] then 0
    else
      var before := Unmatched(es[..|es| - 1]);
      if es[|es| - 1].Entering? then before + 1 else if before == 0 then 0 else before - 1
  }

  /** The stream without its surplus exits. */
  function Effective(es: seq<Event>): seq<Event> {
    if es == [] then []
    else
      var n := |es| - 1;
      if es[n].Exiting? && Unmatched(es[..n]) == 0 then Effective(es[..n]) else Effective(es[..n]) + [es[n]]
  }

  lemma EventsAllAppend(fs: seq<Frame>, f: Frame)
    ensures EventsAll(fs + [f]) == EventsAll(fs) + Events(f)
  {
    assert (fs + [f])[..|fs|] == fs;
  }

  lemma PrintChainAppend(chain: seq<OpenFrame>, o: OpenFrame)
    ensures PrintChain(chain + [o]) == PrintChain(chain) + ([Entering(o.enter)] + EventsAll(o.calls))
  {
    assert (chain + [o])[..|chain|] == chain;
  }

  lemma PrintAdd(p: Parse, f: Frame)
    ensures Print(Add(p, f)) == Print(p) + Events(f)
  {
    if p.chain == [] {
      EventsAllAppend(p.done, f);
      assert PrintChain(p.chain) == [];
    } else {
      var n := |p.chain| - 1;
      var front, o := p.chain[..n], p.chain[n];
      PrintAddOpen(front, o, f);
      assert p.chain == front + [o];
      assert Add(p, f).chain == front + [o.(calls := o.calls + [f])];
      Associate(EventsAll(p.done), PrintChain(p.chain), Events(f));
    }
  }

  lemma PrintAddOpen(front: seq<OpenFrame>, o: OpenFrame, f: Frame)
    ensures PrintChain(front + [o.(calls := o.calls + [f])]) == PrintChain(front + [o]) + Events(f)
  {
    var enter := [Entering(o.enter)];
    EventsAllAppend(o.calls, f);
    PrintChainAppend(front, o);
    PrintChainAppend(front, o.(calls := o.calls + [f]));
    Associate(enter, EventsAll(o.calls), Events(f));
    Associate(PrintChain(front), enter + EventsAll(o.calls), Events(f));
  }

  lemma PrintStep(p: Parse, e: Event)
    requires e.Exiting? ==> p.chain != []
    ensures Print(ParseStep(p, e)) == Print(p) + [e]
  {
    match e
    case Entering(enter) =>
      PrintChainAppend(p.chain, OpenFrame(enter, []));
      assert EventsAll([]) == [];
    case Exiting(exit) =>
      var n := |p.chain| - 1;
      var o := p.chain[n];
      var rest := p.(chain := p.chain[..n]);
      PrintChainAppend(rest.chain, o);
      assert p.chain == rest.chain + [o];
      PrintAdd(rest, Frame(o.enter, o.calls, exit));
  }

  lemma {:induction false} PrintOfParse(es: seq<Event>)
    ensures Print(ParseOf(es)) == Effective(es)
    ensures |ParseOf(es).chain| == Unmatched(es)
  {
    if es == [] {
    } else {
      var n := |es| - 1;
      PrintOfParse(es[..n]);
      if es[n].Entering? || Unmatched(es[..n]) > 0 {
        PrintStep(ParseOf(es[..n]), es[n]);
      }
    }
  }

  /** The stack holds exactly the unmatched enters, each at its own depth. */
  lemma StackHeight(es: seq<Event>)
    ensures |Run(IDLE, es).stack| == Unmatched(es)
    ensures forall i :: 0 <= i < Unmatched(es) ==> Run(IDLE, es).stack[i].depth == i
  {
    TracerParses(es);
    PrintOfParse(es);
    PendingDepths(ParseOf(es).chain);
  }

  lemma {:induction false} PendingDepths(chain: seq<OpenFrame>)
    ensures forall i :: 0 <= i < |chain| ==> Pending(chain)[i].depth == i
  {
    if chain == [] {
    } else {
      PendingDepths(chain[..|chain| - 1]);
    }
  }

  /** Surplus exits change nothing. */
  lemma SurplusIgnored(es: seq<Event>)
    ensures Run(IDLE, es) == Run(IDLE, Effective(es))
  {
    TracerParses(es);
    PrintOfParse(es);
    ParseOfPrint(ParseOf(es));
    TracerParses(Effective(es));
  }

  /** A complete execution leaves the trace of its last top-level frame as root. */
  lemma RootIsLastFrame(fs: seq<Frame>)
    requires fs != []
    ensures Run(IDLE, EventsAll(fs)) == Tracer([], Some(Trace(fs[|fs| - 1], 0)))
  {
    var p := Parse(fs, []);
    assert Print(p) == EventsAll(fs);
    ParseOfPrint(p);
    TracerParses(EventsAll(fs));
  }

  /** Enters minus exits. */
  function Balance(es: seq<Event>): int {
    if es == [] then 0 else Balance(es[..|es| - 1]) + if es[|es| - 1].Entering? then 1 else -1
  }

  /** Counted without a stack: the unmatched enters are the largest excess of
      enters over exits in any suffix of the stream. */
  lemma {:induction false} UnmatchedIsLargestSuffix(es: seq<Event>) returns (from: nat)
    ensures from <= |es| && Balance(es[from..]) == Unmatched(es)
    ensures forall k :: 0 <= k <= |es| ==> Balance(es[k..]) <= Unmatched(es)
  {
    if es == [] {
      return 0;
    }
    var n := |es| - 1;
    var e := es[n];
    from := UnmatchedIsLargestSuffix(es[..n]);
    forall k | 0 <= k <= n ensures Balance(es[k..]) == Balance(es[..n][k..]) + if e.Entering? then 1 else -1 {
      assert es[k..][..n - k] == es[..n][k..];
    }
    assert es[n + 1..] == [];
    if e.Exiting? && Unmatched(es[..n]) == 0 {
      from := n + 1;
    }
  }
}
