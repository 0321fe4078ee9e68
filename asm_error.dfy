/**
 * Diagnostics of the assembler: a code, the source line, a message and a
 * level. Only the codes the model records are listed.
 */
module AsmErrors {

  datatype Level = Error | Warning

  datatype AsmError = AsmError(code: int, extra: string, lineNumber: int, level: Level)

  const WrongTypeOperand: int := 2
  const WrongNumArgs: int := 3
  const WrongNumericValue: int := 4
  const WrongArgTypeNeedV: int := 5
  const WrongVariableName: int := 6
  const UndefinedVariable: int := 7
  const DirectiveError: int := 8
  const InstructionNoncompliant: int := 9
  const ExpressionEval: int := 12
  const NumberOutOfRange: int := 13
  const ReservedKeyword: int := 14
  const PreprocessWrongDirective: int := 20
  const PreprocessUnbalancedIf: int := 21
  const PreprocessSymbol: int := 22
  const UnusedSymbol: int := 23
  const Syntax: int := 24

  /** The error-level constructor of `AsmError`. */
  function Err(code: int, extra: string, line: int): (e: AsmError)
    ensures e.code == code && e.lineNumber == line && e.level == Error
  {
    AsmError(code, extra, line, Error)
  }
}
