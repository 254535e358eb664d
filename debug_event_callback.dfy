/** The debug-event callbacks of the Windows debugging engine front end
    (cdbdebugeventcallback.cpp): which events each callback registers for,
    and what it does with them. The engine calls the handler named after
    the event's kind; here one `Handle` method per callback stands for that
    family of handlers, selecting the case by the event's constructor. */
module DebugEventCallback {
  import opened Wrappers
  import opened ExceptionFormat

  // DEBUG_EVENT_* interest bits of the dbgeng interface.
  const DebugEventBreakpoint: bv32 := 0x1
  const DebugEventException: bv32 := 0x2
  const DebugEventCreateThread: bv32 := 0x4
  const DebugEventExitThread: bv32 := 0x8
  const DebugEventCreateProcess: bv32 := 0x10
  const DebugEventExitProcess: bv32 := 0x20
  const DebugEventLoadModule: bv32 := 0x40
  const DebugEventUnloadModule: bv32 := 0x80
  const DebugEventSystemError: bv32 := 0x100
  const DebugEventSessionStatus: bv32 := 0x200
  const DebugEventChangeDebuggeeState: bv32 := 0x400
  const DebugEventChangeEngineState: bv32 := 0x800
  const DebugEventChangeSymbolState: bv32 := 0x1000

  /** One notification of IDebugEventCallbacksWide with its arguments.
      Handles, offsets and sizes are opaque numbers; `bp` identifies the
      breakpoint object the engine passes. */
  datatype DebugEvent =
    | Breakpoint(bp: nat)
    | Exception(record: ExceptionRecord, firstChance: nat)
    | CreateThread(handle: nat, dataOffset: nat, startOffset: nat)
    | ExitThread(exitCode: nat)
    | CreateProcess(imageFileHandle: nat, processHandle: nat, baseOffset: nat, moduleSize: nat,
                    moduleName: string, imageName: string, checkSum: nat, timeDateStamp: nat,
                    initialThreadHandle: nat, threadDataOffset: nat, threadStartOffset: nat)
    | ExitProcess(exitCode: nat)
    | LoadModule(imageFileHandle: nat, baseOffset: nat, moduleSize: nat, moduleName: string,
                 imageName: string, checkSum: nat, timeDateStamp: nat)
    | UnloadModule(imageBaseName: string, baseOffset: nat)
    | SystemError(error: nat, level: nat)
    | SessionStatus(status: nat)
    | ChangeDebuggeeState(flags: nat, argument: nat)
    | ChangeEngineState(flags: nat, argument: nat)
    | ChangeSymbolState(flags: nat, argument: nat)

  /** The interest bit that announces events of this kind. */
  function EventBit(ev: DebugEvent): bv32 {
    match ev
    case Breakpoint(_) => DebugEventBreakpoint
    case Exception(_, _) => DebugEventException
    case CreateThread(_, _, _) => DebugEventCreateThread
    case ExitThread(_) => DebugEventExitThread
    case CreateProcess(_, _, _, _, _, _, _, _, _, _, _) => DebugEventCreateProcess
    case ExitProcess(_) => DebugEventExitProcess
    case LoadModule(_, _, _, _, _, _, _) => DebugEventLoadModule
    case UnloadModule(_, _) => DebugEventUnloadModule
    case SystemError(_, _) => DebugEventSystemError
    case SessionStatus(_) => DebugEventSessionStatus
    case ChangeDebuggeeState(_, _) => DebugEventChangeDebuggeeState
    case ChangeEngineState(_, _) => DebugEventChangeEngineState
    case ChangeSymbolState(_, _) => DebugEventChangeSymbolState
  }

  /** A callback registered with `mask` is told about `ev`. */
  predicate Wants(mask: bv32, ev: DebugEvent) {
    mask & EventBit(ev) != 0
  }

  /** CdbDebugEventCallback::GetInterestMask: processes, modules, threads,
      breakpoints and exceptions. */
  function PrimaryInterestMask(): (mask: bv32)
    ensures forall ev :: Wants(mask, ev) <==>
      ev.Breakpoint? || ev.Exception? || ev.CreateThread? || ev.ExitThread? ||
      ev.CreateProcess? || ev.ExitProcess? || ev.LoadModule? || ev.UnloadModule?
  {
    DebugEventCreateProcess | DebugEventExitProcess
    | DebugEventLoadModule | DebugEventUnloadModule
    | DebugEventCreateThread | DebugEventExitThread
    | DebugEventBreakpoint
    | DebugEventException
  }

  /** CdbExceptionLoggerEventCallback::GetInterestMask: exceptions only. */
  function LoggerInterestMask(): (mask: bv32)
    ensures forall ev :: Wants(mask, ev) <==> ev.Exception?
  {
    DebugEventException
  }

  /** IgnoreDebugEventCallback::GetInterestMask: nothing at all. */
  function IgnoreInterestMask(): (mask: bv32)
    ensures forall ev :: !Wants(mask, ev)
  {
    0
  }

  // ---------------------------------------------------------------- the primary callback

  /** A call the primary callback makes into the debugger engine (or into
      the debugger manager the engine exposes). */
  datatype EngineCall =
    | HandleBreakpointEvent(bp: nat)
    | ShowApplicationOutput(text: string)
    | NotifyCrashed
    | UpdateThreadList
    | ProcessCreatedAttached(processHandle: nat, initialThreadHandle: nat)
    | ProcessTerminated(exitCode: nat)
    | HandleModuleLoad(moduleName: string)
    | UpdateModules

  /** The calls the primary callback makes for one event. `trace` is the
      stack trace the engine's dumper yields for the current thread, None
      when it cannot be created. */
  function Response(ev: DebugEvent, trace: Option<string>): seq<EngineCall> {
    match ev
    case Breakpoint(bp) => [HandleBreakpointEvent(bp)]
    case Exception(e, _) =>
      [ShowApplicationOutput(FormatWithTrace(e, trace))]
      + (if IsFatalException(e.code) then [NotifyCrashed] else [])
    case CreateThread(_, _, _) => [UpdateThreadList]
    case ExitThread(_) => [UpdateThreadList]
    case CreateProcess(_, handle, _, _, _, _, _, _, initialThread, _, _) =>
      [ProcessCreatedAttached(handle, initialThread)]
    case ExitProcess(exitCode) => [ProcessTerminated(exitCode)]
    case LoadModule(_, _, _, name, _, _, _) => [HandleModuleLoad(name)]
    case UnloadModule(_, _) => [UpdateModules]
    // SystemError only logs; the rest keep the base class's empty handlers.
    case SystemError(_, _) => []
    case SessionStatus(_) => []
    case ChangeDebuggeeState(_, _) => []
    case ChangeEngineState(_, _) => []
    case ChangeSymbolState(_, _) => []
  }

  /** How often `x` occurs in `s`. */
  function Occurrences<T(==)>(x: T, s: seq<T>): nat {
    if s == [] then 0 else (if s[0] == x then 1 else 0) + Occurrences(x, s[1..])
  }

  lemma {:induction false} OccurrencesConcat<T>(x: T, a: seq<T>, b: seq<T>)
    ensures Occurrences(x, a + b) == Occurrences(x, a) + Occurrences(x, b)
  {
    if a == [] {
      assert a + b == b;
    } else {
      assert (a + b)[1..] == a[1..] + b;
      OccurrencesConcat(x, a[1..], b);
    }
  }

  /** A fatal exception is reported exactly once as a crash; no other event
      is. Every exception, fatal or not, is shown as application output. */
  lemma CrashNotifiedIffFatal(ev: DebugEvent, trace: Option<string>)
    ensures Occurrences(NotifyCrashed, Response(ev, trace)) ==
            if ev.Exception? && IsFatalException(ev.record.code) then 1 else 0
    ensures ev.Exception? ==>
            Response(ev, trace)[0] == ShowApplicationOutput(FormatWithTrace(ev.record, trace))
  {
    if ev.Exception? {
      var tail: seq<EngineCall> := if IsFatalException(ev.record.code) then [NotifyCrashed] else [];
      OccurrencesConcat(NotifyCrashed, [ShowApplicationOutput(FormatWithTrace(ev.record, trace))], tail);
    }
  }

  /** The primary callback acts on exactly the events it registers for. */
  lemma RespondsIffWanted(ev: DebugEvent, trace: Option<string>)
    ensures Response(ev, trace) != [] <==> Wants(PrimaryInterestMask(), ev)
  {
  }

  /** The calls a sequence of notifications produces, in order. */
  function ResponseToAll(run: seq<(DebugEvent, Option<string>)>): seq<EngineCall> {
    if run == [] then [] else Response(run[0].0, run[0].1) + ResponseToAll(run[1..])
  }

  /** How many notifications of a run are fatal exceptions. */
  function FatalExceptions(run: seq<(DebugEvent, Option<string>)>): nat {
    if run == [] then 0
    else (if run[0].0.Exception? && IsFatalException(run[0].0.record.code) then 1 else 0)
         + FatalExceptions(run[1..])
  }

  /** Over a whole session the engine is told of as many crashes as there
      were fatal exceptions. */
  lemma {:induction false} CrashCountOfRun(run: seq<(DebugEvent, Option<string>)>)
    ensures Occurrences(NotifyCrashed, ResponseToAll(run)) == FatalExceptions(run)
  {
    if run != [] {
      OccurrencesConcat(NotifyCrashed, Response(run[0].0, run[0].1), ResponseToAll(run[1..]));
      CrashNotifiedIffFatal(run[0].0, run[0].1);
      CrashCountOfRun(run[1..]);
    }
  }

  /** The debugger engine as far as the callback can observe it: the calls
      it has received, oldest first. */
  class CdbDebugEngine {
    var calls: seq<EngineCall>

    constructor ()
      ensures calls == []
    {
      calls := [];
    }

    method Receive(c: EngineCall)
      modifies this
      ensures calls == old(calls) + [c]
    {
      calls := calls + [c];
    }
  }

  /** CdbDebugEventCallback: forwards each event to the engine. */
  class CdbDebugEventCallback {
    const engine: CdbDebugEngine

    constructor (engine: CdbDebugEngine)
      ensures this.engine == engine
    {
      this.engine := engine;
    }

    method GetInterestMask() returns (mask: bv32)
      ensures mask == PrimaryInterestMask()
    {
      mask := PrimaryInterestMask();
    }

    method Handle(ev: DebugEvent, trace: Option<string>)
      modifies engine
      ensures engine.calls == old(engine.calls) + Response(ev, trace)
    {
      match ev
      case Breakpoint(bp) =>
        engine.Receive(HandleBreakpointEvent(bp));
      case Exception(e, _) =>
        var msg := FormatWithTrace(e, trace);
        var fatal := IsFatalException(e.code);
        engine.Receive(ShowApplicationOutput(msg));
        if fatal {
          engine.Receive(NotifyCrashed);
        }
      case CreateThread(_, _, _) =>
        engine.Receive(UpdateThreadList);
      case ExitThread(_) =>
        engine.Receive(UpdateThreadList);
      case CreateProcess(_, handle, _, _, _, _, _, _, initialThread, _, _) =>
        engine.Receive(ProcessCreatedAttached(handle, initialThread));
      case ExitProcess(exitCode) =>
        engine.Receive(ProcessTerminated(exitCode));
      case LoadModule(_, _, _, name, _, _, _) =>
        engine.Receive(HandleModuleLoad(name));
      case UnloadModule(_, _) =>
        engine.Receive(UpdateModules);
      case SystemError(_, _) =>
      case SessionStatus(_) =>
      case ChangeDebuggeeState(_, _) =>
      case ChangeEngineState(_, _) =>
      case ChangeSymbolState(_, _) =>
    }
  }

  // ---------------------------------------------------------------- the exception logger

  /** The debugger-manager output the logger writes to: (prefix, text) pairs. */
  class DebuggerOutput {
    var shown: seq<(string, string)>

    constructor ()
      ensures shown == []
    {
      shown := [];
    }

    method ShowDebuggerOutput(prefix: string, text: string)
      modifies this
      ensures shown == old(shown) + [(prefix, text)]
    {
      shown := shown + [(prefix, text)];
    }
  }

  /** CdbExceptionLoggerEventCallback: keeps the text of every exception and
      shows it under its prefix. */
  class CdbExceptionLoggerEventCallback {
    const logPrefix: string
    const access: DebuggerOutput
    var exceptionMessages: seq<string>

    constructor (logPrefix: string, access: DebuggerOutput)
      ensures this.logPrefix == logPrefix && this.access == access
      ensures exceptionMessages == []
    {
      this.logPrefix := logPrefix;
      this.access := access;
      exceptionMessages := [];
    }

    method GetInterestMask() returns (mask: bv32)
      ensures mask == LoggerInterestMask()
    {
      mask := LoggerInterestMask();
    }

    method Handle(ev: DebugEvent)
      modifies this, access
      ensures ev.Exception? ==>
        exceptionMessages == old(exceptionMessages) + [Format(ev.record)] &&
        access.shown == old(access.shown) + [(logPrefix, Format(ev.record))]
      ensures !ev.Exception? ==>
        exceptionMessages == old(exceptionMessages) && access.shown == old(access.shown)
    {
      if ev.Exception? {
        exceptionMessages := exceptionMessages + [Format(ev.record)];
        access.ShowDebuggerOutput(logPrefix, exceptionMessages[|exceptionMessages| - 1]);
      }
    }
  }

  // ---------------------------------------------------------------- sessions

  /** A breakpoint exception followed by an access violation, delivered to a
      fresh primary callback: both are shown, only the second is a crash. */
  method BreakpointThenAccessViolation(bpRecord: ExceptionRecord, avRecord: ExceptionRecord)
    returns (calls: seq<EngineCall>)
    requires bpRecord.code == ExceptionBreakpoint
    requires avRecord.code == ExceptionAccessViolation
    ensures calls == [ShowApplicationOutput(Format(bpRecord)),
                      ShowApplicationOutput(Format(avRecord)), NotifyCrashed]
    ensures Occurrences(NotifyCrashed, calls) == 1
  {
    var engine := new CdbDebugEngine();
    var callback := new CdbDebugEventCallback(engine);
    TraceSection(bpRecord, None);
    TraceSection(avRecord, None);
    callback.Handle(Exception(bpRecord, 1), None);
    callback.Handle(Exception(avRecord, 1), None);
    calls := engine.calls;
    OccurrencesConcat(NotifyCrashed, calls[..2], [NotifyCrashed]);
    assert calls == calls[..2] + [NotifyCrashed];
  }

  /** Events the logger is not registered for leave it untouched; each
      exception adds one message, the plain text of the record, and shows it
      under the logger's prefix. */
  method LoggerSession(prefix: string, first: ExceptionRecord, second: ExceptionRecord, thread: nat)
    returns (messages: seq<string>, shown: seq<(string, string)>)
    ensures messages == [Format(first), Format(second)]
    ensures shown == [(prefix, Format(first)), (prefix, Format(second))]
  {
    var output := new DebuggerOutput();
    var logger := new CdbExceptionLoggerEventCallback(prefix, output);
    logger.Handle(Exception(first, 1));
    logger.Handle(CreateThread(thread, 0, 0));
    logger.Handle(Exception(second, 0));
    messages := logger.exceptionMessages;
    shown := output.shown;
  }
}
