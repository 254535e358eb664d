/** Classification and text rendering of the exception records the Windows
    debugging engine reports (cdbdebugeventcallback.cpp). The numeric
    EXCEPTION_* values come from the Windows SDK headers, which are not part
    of this model; the three private codes are the ones the source defines. */
module ExceptionFormat {
  import opened Wrappers
  import opened HexText
  import opened TextFacts

  type Word32 = n: nat | n < 0x1_0000_0000
  type Word64 = n: nat | n < 0x1_0000_0000_0000_0000

  /** EXCEPTION_RECORD64.ExceptionInformation is a fixed array of
      EXCEPTION_MAXIMUM_PARAMETERS (15) entries, whatever NumberParameters says. */
  const MaximumParameters: nat := 15
  type ExceptionInformation = s: seq<Word64> | |s| == MaximumParameters
    witness seq(MaximumParameters, i => 0)

  /** The fields of EXCEPTION_RECORD64 that the formatting reads. */
  datatype ExceptionRecord = ExceptionRecord(
    code: Word32,
    flags: Word32,
    address: Word64,
    information: ExceptionInformation)

  // Codes private to the debugger plugin.
  const CppExceptionCode: Word32 := 0xe06d7363
  const StartupCompleteTrap: Word32 := 0x406d1388
  const RpcServerUnavailableExceptionCode: Word32 := 0x6ba

  // Codes of the Windows SDK.
  const ExceptionAccessViolation: Word32 := 0xc0000005
  const ExceptionArrayBoundsExceeded: Word32 := 0xc000008c
  const ExceptionBreakpoint: Word32 := 0x80000003
  const ExceptionDatatypeMisalignment: Word32 := 0x80000002
  const ExceptionFltDenormalOperand: Word32 := 0xc000008d
  const ExceptionFltDivideByZero: Word32 := 0xc000008e
  const ExceptionFltInexactResult: Word32 := 0xc000008f
  const ExceptionFltInvalidOperation: Word32 := 0xc0000090
  const ExceptionFltOverflow: Word32 := 0xc0000091
  const ExceptionFltStackCheck: Word32 := 0xc0000092
  const ExceptionFltUnderflow: Word32 := 0xc0000093
  const ExceptionIllegalInstruction: Word32 := 0xc000001d
  const ExceptionInPageError: Word32 := 0xc0000006
  const ExceptionIntDivideByZero: Word32 := 0xc0000094
  const ExceptionIntOverflow: Word32 := 0xc0000095
  const ExceptionInvalidDisposition: Word32 := 0xc0000026
  const ExceptionNoncontinuableException: Word32 := 0xc0000025
  const ExceptionPrivInstruction: Word32 := 0xc0000096
  const ExceptionSingleStep: Word32 := 0x80000004
  const ExceptionStackOverflow: Word32 := 0xc00000fd

  /** The ExceptionFlags value meaning "cannot be continued". */
  const ExceptionNoncontinuable: Word32 := 1

  /** The codes a debug session does not treat as a crash. */
  const BenignCodes: set<Word32> :=
    {ExceptionBreakpoint, ExceptionSingleStep, StartupCompleteTrap, RpcServerUnavailableExceptionCode}

  /** The codes the formatter's switch has a case for. */
  const TabledCodes: set<Word32> :=
    {CppExceptionCode, StartupCompleteTrap, ExceptionAccessViolation, ExceptionArrayBoundsExceeded,
     ExceptionBreakpoint, ExceptionDatatypeMisalignment, ExceptionFltDenormalOperand,
     ExceptionFltDivideByZero, ExceptionFltInexactResult, ExceptionFltInvalidOperation,
     ExceptionFltOverflow, ExceptionFltStackCheck, ExceptionFltUnderflow,
     ExceptionIllegalInstruction, ExceptionInPageError, ExceptionIntDivideByZero,
     ExceptionIntOverflow, ExceptionInvalidDisposition, ExceptionNoncontinuableException,
     ExceptionPrivInstruction, ExceptionSingleStep, ExceptionStackOverflow}

  // ---------------------------------------------------------------- classification

  /** isFatalException: the switch compares the 32-bit pattern of the code. */
  function IsFatalException(code: Word32): bool {
    if code == ExceptionBreakpoint then false
    else if code == ExceptionSingleStep then false
    else if code == StartupCompleteTrap then false
    else if code == RpcServerUnavailableExceptionCode then false
    else true
  }

  /** A code is benign exactly when it is one of the four listed ones; in
      particular the C++ exception code is fatal. */
  lemma FatalIffNotBenign(code: Word32)
    ensures !IsFatalException(code) <==> code in BenignCodes
    ensures IsFatalException(CppExceptionCode)
  {
  }

  // ---------------------------------------------------------------- formatting

  const HeaderLead := "\nException at 0x"
  const CodeLead := ", code: 0x"
  const FlagsLead := ", flags=0x"
  const NoncontinuableNote := " (execution cannot be continued)"
  const AccessViolationLead := " access violation at: 0x"

  /** The cases of formatException's switch. */
  datatype SwitchCase =
    | CppException | StartupComplete | AccessViolation | ArrayBoundsExceeded | Breakpoint
    | DatatypeMisalignment | FltDenormalOperand | FltDivideByZero | FltInexactResult
    | FltInvalidOperation | FltOverflow | FltStackCheck | FltUnderflow | IllegalInstruction
    | InPageError | IntDivideByZero | IntOverflow | InvalidDisposition
    | NoncontinuableException | PrivInstruction | SingleStep | StackOverflow

  /** The case label that `code` selects, if any. */
  function CaseOf(code: Word32): Option<SwitchCase> {
    if code == CppExceptionCode then Some(CppException)
    else if code == StartupCompleteTrap then Some(StartupComplete)
    else if code == ExceptionAccessViolation then Some(AccessViolation)
    else if code == ExceptionArrayBoundsExceeded then Some(ArrayBoundsExceeded)
    else if code == ExceptionBreakpoint then Some(Breakpoint)
    else if code == ExceptionDatatypeMisalignment then Some(DatatypeMisalignment)
    else if code == ExceptionFltDenormalOperand then Some(FltDenormalOperand)
    else if code == ExceptionFltDivideByZero then Some(FltDivideByZero)
    else if code == ExceptionFltInexactResult then Some(FltInexactResult)
    else if code == ExceptionFltInvalidOperation then Some(FltInvalidOperation)
    else if code == ExceptionFltOverflow then Some(FltOverflow)
    else if code == ExceptionFltStackCheck then Some(FltStackCheck)
    else if code == ExceptionFltUnderflow then Some(FltUnderflow)
    else if code == ExceptionIllegalInstruction then Some(IllegalInstruction)
    else if code == ExceptionInPageError then Some(InPageError)
    else if code == ExceptionIntDivideByZero then Some(IntDivideByZero)
    else if code == ExceptionIntOverflow then Some(IntOverflow)
    else if code == ExceptionInvalidDisposition then Some(InvalidDisposition)
    else if code == ExceptionNoncontinuableException then Some(NoncontinuableException)
    else if code == ExceptionPrivInstruction then Some(PrivInstruction)
    else if code == ExceptionSingleStep then Some(SingleStep)
    else if code == ExceptionStackOverflow then Some(StackOverflow)
    else None
  }

  /** The code each case label names. */
  function CodeOf(c: SwitchCase): (code: Word32)
    ensures code in TabledCodes
  {
    match c
    case CppException => CppExceptionCode
    case StartupComplete => StartupCompleteTrap
    case AccessViolation => ExceptionAccessViolation
    case ArrayBoundsExceeded => ExceptionArrayBoundsExceeded
    case Breakpoint => ExceptionBreakpoint
    case DatatypeMisalignment => ExceptionDatatypeMisalignment
    case FltDenormalOperand => ExceptionFltDenormalOperand
    case FltDivideByZero => ExceptionFltDivideByZero
    case FltInexactResult => ExceptionFltInexactResult
    case FltInvalidOperation => ExceptionFltInvalidOperation
    case FltOverflow => ExceptionFltOverflow
    case FltStackCheck => ExceptionFltStackCheck
    case FltUnderflow => ExceptionFltUnderflow
    case IllegalInstruction => ExceptionIllegalInstruction
    case InPageError => ExceptionInPageError
    case IntDivideByZero => ExceptionIntDivideByZero
    case IntOverflow => ExceptionIntOverflow
    case InvalidDisposition => ExceptionInvalidDisposition
    case NoncontinuableException => ExceptionNoncontinuableException
    case PrivInstruction => ExceptionPrivInstruction
    case SingleStep => ExceptionSingleStep
    case StackOverflow => ExceptionStackOverflow
  }

  /** The case labels are distinct: each code selects the one label that
      names it, and the codes without a label select none. */
  lemma CaseOfIsInverse(code: Word32, c: SwitchCase)
    ensures CaseOf(CodeOf(c)) == Some(c)
    ensures CaseOf(code) == Some(c) <==> code == CodeOf(c)
    ensures CaseOf(code).None? <==> code !in TabledCodes
  {
  }

  /** The fixed phrase of each case (the access-violation case is built from
      the record instead, see Description). The spelling is the source's; the
      longer phrases are written as concatenations of shorter literals, which
      the verifier handles better. */
  function Phrase(c: SwitchCase): string {
    match c
    case CppException => "C++ exception"
    case StartupComplete => "Startup complete"
    case AccessViolation => ""
    case ArrayBoundsExceeded => "arrary bounds exceeded"
    case Breakpoint => "breakpoint"
    case DatatypeMisalignment => "datatype misalignment"
    case FltDenormalOperand => "floating point exception"
    case FltDivideByZero => "division by zero"
    case FltInexactResult =>
      " floating-point operation" + " cannot be represented exactly" + " as a decimal fraction"
    case FltInvalidOperation => "invalid floating-point operation"
    case FltOverflow => "floating-point overflow"
    case FltStackCheck => "floating-point operation" + " stack over/underflow"
    case FltUnderflow => "floating-point UNDERFLOW"
    case IllegalInstruction => "invalid instruction"
    case InPageError => "page in error"
    case IntDivideByZero => "integer division by zero"
    case IntOverflow => "integer overflow"
    case InvalidDisposition => "invalid disposition" + " to exception dispatcher"
    case NoncontinuableException =>
      "attempt to continue execution" + " after noncontinuable exception"
    case PrivInstruction => "privileged instruction"
    case SingleStep => "single step"
    case StackOverflow => "stack_overflow"
  }

  /** A fixed phrase is non-empty, holds no '(' (so it cannot contain the
      "cannot be continued" note) and starts with neither 'w' nor 'r' (so it
      cannot be mistaken for an access-violation report). */
  predicate PlainPhrase(s: string) {
    |s| > 0 && Lacks(s, '(') && s[0] != 'w' && s[0] != 'r'
  }

  lemma PhraseFacts(c: SwitchCase)
    requires c != AccessViolation
    ensures PlainPhrase(Phrase(c))
  {
    match c
    case CppException => CppExceptionIsPlain();
    case StartupComplete => StartupCompleteIsPlain();
    case ArrayBoundsExceeded => ArrayBoundsExceededIsPlain();
    case Breakpoint => BreakpointIsPlain();
    case DatatypeMisalignment => DatatypeMisalignmentIsPlain();
    case FltDenormalOperand => FltDenormalOperandIsPlain();
    case FltDivideByZero => FltDivideByZeroIsPlain();
    case FltInexactResult => FltInexactResultIsPlain();
    case FltInvalidOperation => FltInvalidOperationIsPlain();
    case FltOverflow => FltOverflowIsPlain();
    case FltStackCheck => FltStackCheckIsPlain();
    case FltUnderflow => FltUnderflowIsPlain();
    case IllegalInstruction => IllegalInstructionIsPlain();
    case InPageError => InPageErrorIsPlain();
    case IntDivideByZero => IntDivideByZeroIsPlain();
    case IntOverflow => IntOverflowIsPlain();
    case InvalidDisposition => InvalidDispositionIsPlain();
    case NoncontinuableException => NoncontinuableExceptionIsPlain();
    case PrivInstruction => PrivInstructionIsPlain();
    case SingleStep => SingleStepIsPlain();
    case StackOverflow => StackOverflowIsPlain();
  }

  // One lemma per phrase keeps each literal in a proof of its own.
  lemma CppExceptionIsPlain() ensures PlainPhrase(Phrase(CppException)) {}
  lemma StartupCompleteIsPlain() ensures PlainPhrase(Phrase(StartupComplete)) {}
  lemma ArrayBoundsExceededIsPlain() ensures PlainPhrase(Phrase(ArrayBoundsExceeded)) {}
  lemma BreakpointIsPlain() ensures PlainPhrase(Phrase(Breakpoint)) {}
  lemma DatatypeMisalignmentIsPlain() ensures PlainPhrase(Phrase(DatatypeMisalignment)) {}
  lemma FltDenormalOperandIsPlain() ensures PlainPhrase(Phrase(FltDenormalOperand)) {}
  lemma FltDivideByZeroIsPlain() ensures PlainPhrase(Phrase(FltDivideByZero)) {}
  lemma FltInexactResultIsPlain() ensures PlainPhrase(Phrase(FltInexactResult)) {}
  lemma FltInvalidOperationIsPlain() ensures PlainPhrase(Phrase(FltInvalidOperation)) {}
  lemma FltOverflowIsPlain() ensures PlainPhrase(Phrase(FltOverflow)) {}
  lemma FltStackCheckIsPlain() ensures PlainPhrase(Phrase(FltStackCheck)) {}
  lemma FltUnderflowIsPlain() ensures PlainPhrase(Phrase(FltUnderflow)) {}
  lemma IllegalInstructionIsPlain() ensures PlainPhrase(Phrase(IllegalInstruction)) {}
  lemma InPageErrorIsPlain() ensures PlainPhrase(Phrase(InPageError)) {}
  lemma IntDivideByZeroIsPlain() ensures PlainPhrase(Phrase(IntDivideByZero)) {}
  lemma IntOverflowIsPlain() ensures PlainPhrase(Phrase(IntOverflow)) {}
  lemma InvalidDispositionIsPlain() ensures PlainPhrase(Phrase(InvalidDisposition)) {}
  lemma NoncontinuableExceptionIsPlain() ensures PlainPhrase(Phrase(NoncontinuableException)) {}
  lemma PrivInstructionIsPlain() ensures PlainPhrase(Phrase(PrivInstruction)) {}
  lemma SingleStepIsPlain() ensures PlainPhrase(Phrase(SingleStep)) {}
  lemma StackOverflowIsPlain() ensures PlainPhrase(Phrase(StackOverflow)) {}

  /** "write" when ExceptionInformation[0] is non-zero, else "read". */
  function AccessKind(e: ExceptionRecord): string {
    if e.information[0] != 0 then "write" else "read"
  }

  /** What the switch writes between the header and the flags. */
  function Description(e: ExceptionRecord): string {
    match CaseOf(e.code)
    case None => ""
    case Some(AccessViolation) => AccessKind(e) + (AccessViolationLead + Hex(e.information[1]))
    case Some(c) => Phrase(c)
  }

  function Header(e: ExceptionRecord): string {
    HeaderLead + (Hex(e.address) + (CodeLead + (Hex(e.code) + ": ")))
  }

  function NoncontinuableText(e: ExceptionRecord): string {
    if e.flags == ExceptionNoncontinuable then NoncontinuableNote else ""
  }

  function FlagsText(e: ExceptionRecord): string {
    FlagsLead + (Hex(e.flags) + (NoncontinuableText(e) + "\n\n"))
  }

  /** formatException(e, str): the text streamed for one record. */
  function Format(e: ExceptionRecord): string {
    Header(e) + (Description(e) + FlagsText(e))
  }

  /** formatException(e, dumper, str): the plain text, then the stack trace
      for a C++ exception. `trace` is what creating and formatting a stack
      trace context for the current thread yields; None when creation fails. */
  function FormatWithTrace(e: ExceptionRecord, trace: Option<string>): string {
    Format(e)
    + (if e.code == CppExceptionCode && trace.Some? then "at:\n" + trace.value + "\n" else "")
  }

  // ---------------------------------------------------------------- properties

  /** The text starts with the header, holds the flags and ends with an
      empty line, whatever the code. */
  lemma FormatShape(e: ExceptionRecord)
    ensures Header(e) <= Format(e)
    ensures Contains(Format(e), FlagsLead + Hex(e.flags))
    ensures EndsWith(Format(e), "\n\n")
  {
    var p := FlagsLead + Hex(e.flags);
    var t := NoncontinuableText(e) + "\n\n";
    ConcatAssoc(FlagsLead, Hex(e.flags), t);
    ConcatAssoc(Header(e), Description(e), p + t);
    ContainsAt(Header(e) + Description(e), p, t);
    EndsWithItself(NoncontinuableText(e), "\n\n");
    EndsWithConcat(Hex(e.flags), t, "\n\n");
    EndsWithConcat(FlagsLead, Hex(e.flags) + t, "\n\n");
    EndsWithConcat(Description(e), FlagsText(e), "\n\n");
    EndsWithConcat(Header(e), Description(e) + FlagsText(e), "\n\n");
  }

  /** The switch contributes a phrase exactly for the codes it lists. */
  lemma DescriptionEmptyIff(e: ExceptionRecord)
    ensures Description(e) == "" <==> e.code !in TabledCodes
  {
    DescriptionFacts(e);
  }

  /** What the verifier needs to know of a description: it is empty exactly
      when the switch has no case, it contains no '(' and only an access
      violation starts with 'w' or 'r'. */
  lemma DescriptionFacts(e: ExceptionRecord)
    ensures Description(e) == "" <==> CaseOf(e.code).None?
    ensures CaseOf(e.code).None? <==> e.code !in TabledCodes
    ensures Lacks(Description(e), '(')
    ensures Description(e) != "" && (Description(e)[0] == 'w' || Description(e)[0] == 'r') ==>
            e.code == ExceptionAccessViolation
  {
    match CaseOf(e.code)
    case None =>
    case Some(AccessViolation) =>
      NoParenInHex(e.information[1]);
      LacksConcat(AccessViolationLead, Hex(e.information[1]), '(');
      LacksConcat(AccessKind(e), AccessViolationLead + Hex(e.information[1]), '(');
    case Some(c) =>
      PhraseFacts(c);
  }

  /** For a code without a case the flags follow the header directly. */
  lemma UntabledCodeHasNoPhrase(e: ExceptionRecord)
    requires e.code !in TabledCodes
    ensures Format(e) == Header(e) + FlagsText(e)
  {
    DescriptionEmptyIff(e);
  }

  /** An access violation reports the operation and the faulting address
      from the first two information entries, then the flags. */
  lemma AccessViolationReport(e: ExceptionRecord)
    requires e.code == ExceptionAccessViolation
    ensures Format(e) ==
      Header(e) + ((if e.information[0] != 0 then "write" else "read")
                   + (" access violation at: 0x" + Hex(e.information[1])) + FlagsText(e))
  {
  }

  /** The character right after the header. */
  lemma CharAfterHeader(e: ExceptionRecord)
    ensures |Format(e)| > |Header(e)|
    ensures Format(e)[|Header(e)|] == if Description(e) == "" then ',' else Description(e)[0]
  {
    assert FlagsText(e)[0] == ',';
  }

  /** Text starting with `w` right after the header belongs to `e` exactly when
      `e` is an access violation of the kind `w` names. */
  lemma AccessKindAfterHeader(e: ExceptionRecord, w: string)
    requires w == "write" || w == "read"
    ensures Header(e) + w <= Format(e) <==> e.code == ExceptionAccessViolation && AccessKind(e) == w
  {
    CharAfterHeader(e);
    DescriptionFacts(e);
    if e.code == ExceptionAccessViolation && AccessKind(e) == w {
      PrefixOfConcat(w, Description(e), FlagsText(e));
      PrefixUnderConcat(Header(e), w, Description(e) + FlagsText(e));
    }
  }

  /** The text reports a write access violation exactly for an access
      violation whose first information entry is non-zero. */
  lemma WriteReportIff(e: ExceptionRecord)
    ensures Header(e) + "write" <= Format(e) <==>
            e.code == ExceptionAccessViolation && e.information[0] != 0
  {
    AccessKindAfterHeader(e, "write");
  }

  /** ... and a read access violation exactly when that entry is zero. */
  lemma ReadReportIff(e: ExceptionRecord)
    ensures Header(e) + "read" <= Format(e) <==>
            e.code == ExceptionAccessViolation && e.information[0] == 0
  {
    AccessKindAfterHeader(e, "read");
  }

  lemma NoParenInHex(n: nat)
    ensures Lacks(Hex(n), '(')
  {
    HexIsCanonical(n);
  }

  /** The "cannot be continued" note appears exactly when the flags equal
      EXCEPTION_NONCONTINUABLE (an equality, not a bit test). */
  lemma NoncontinuableNoteIff(e: ExceptionRecord)
    ensures Contains(Format(e), NoncontinuableNote) <==> e.flags == ExceptionNoncontinuable
  {
    if e.flags == ExceptionNoncontinuable {
      ConcatAssoc(FlagsLead, Hex(e.flags), NoncontinuableNote + "\n\n");
      ConcatAssoc(Header(e) + Description(e), FlagsLead + Hex(e.flags), NoncontinuableNote + "\n\n");
      ConcatAssoc(Header(e), Description(e), FlagsText(e));
      ContainsAt(Header(e) + Description(e) + (FlagsLead + Hex(e.flags)), NoncontinuableNote, "\n\n");
    } else {
      NoParenInHex(e.address);
      NoParenInHex(e.code);
      NoParenInHex(e.flags);
      DescriptionFacts(e);
      LacksConcat(Hex(e.code), ": ", '(');
      LacksConcat(CodeLead, Hex(e.code) + ": ", '(');
      LacksConcat(Hex(e.address), CodeLead + (Hex(e.code) + ": "), '(');
      LacksConcat(HeaderLead, Hex(e.address) + (CodeLead + (Hex(e.code) + ": ")), '(');
      LacksConcat(Hex(e.flags), "\n\n", '(');
      LacksConcat(FlagsLead, Hex(e.flags) + "\n\n", '(');
      LacksConcat(Description(e), FlagsText(e), '(');
      LacksConcat(Header(e), Description(e) + FlagsText(e), '(');
      LacksExcludesContains(Format(e), NoncontinuableNote, 1, '(');
    }
  }

  /** Reads the faulting address and the code back from a diagnostic text. */
  function ReadHeader(s: string): Option<(nat, nat)> {
    if !(HeaderLead <= s) then None
    else
      var r := s[|HeaderLead|..];
      var k := HexRun(r);
      if k == 0 || !(CodeLead <= r[k..]) then None
      else
        var r2 := r[k..][|CodeLead|..];
        var k2 := HexRun(r2);
        if k2 == 0 then None else Some((HexValue(r[..k]), HexValue(r2[..k2])))
  }

  /** The header is unambiguous: the address and code can be read back from
      any formatted record. */
  lemma ReadHeaderOfFormat(e: ExceptionRecord)
    ensures ReadHeader(Format(e)) == Some((e.address as nat, e.code as nat))
  {
    var s := Format(e);
    var rest := Description(e) + FlagsText(e);
    var tail := ": " + rest;
    var codePart := Hex(e.code) + tail;
    var afterLead := Hex(e.address) + (CodeLead + codePart);
    ConcatAssoc(Hex(e.code), ": ", rest);
    ConcatAssoc(CodeLead, Hex(e.code) + ": ", rest);
    ConcatAssoc(Hex(e.address), CodeLead + (Hex(e.code) + ": "), rest);
    ConcatAssoc(HeaderLead, Hex(e.address) + (CodeLead + (Hex(e.code) + ": ")), rest);
    assert s == HeaderLead + afterLead;
    DropConcat(HeaderLead, afterLead);
    var r := s[|HeaderLead|..];
    assert r == afterLead;
    HexRoundTrip(e.address);
    HexRoundTrip(e.code);
    HexRunOfDigitsThen(Hex(e.address), CodeLead + codePart);
    var k := HexRun(r);
    TakeConcat(Hex(e.address), CodeLead + codePart);
    DropConcat(Hex(e.address), CodeLead + codePart);
    assert r[k..] == CodeLead + codePart;
    DropConcat(CodeLead, codePart);
    var r2 := r[k..][|CodeLead|..];
    assert r2 == Hex(e.code) + tail;
    HexRunOfDigitsThen(Hex(e.code), tail);
    TakeConcat(Hex(e.code), tail);
  }

  /** Two records with the same text share address and code. */
  lemma {:induction false} FormatDeterminesHeader(e1: ExceptionRecord, e2: ExceptionRecord)
    requires Format(e1) == Format(e2)
    ensures e1.address == e2.address && e1.code == e2.code
  {
    ReadHeaderOfFormat(e1);
    ReadHeaderOfFormat(e2);
  }

  /** The stack-trace variant always starts with the plain text; it adds a
      section only for a C++ exception whose trace could be created. */
  lemma TraceSection(e: ExceptionRecord, trace: Option<string>)
    ensures Format(e) <= FormatWithTrace(e, trace)
    ensures FormatWithTrace(e, trace) == Format(e) <==> !(e.code == CppExceptionCode && trace.Some?)
    ensures e.code == CppExceptionCode && trace.Some? ==>
      FormatWithTrace(e, trace)[|Format(e)|..] == "at:\n" + trace.value + "\n"
  {
    var s := FormatWithTrace(e, trace);
    if e.code == CppExceptionCode && trace.Some? {
      assert |s| > |Format(e)|;
    }
  }
}
