/**
  The entry points of the addon. Each one checks its arguments in the order
  the addon does, throws on the first check that fails, and otherwise
  forwards the arguments to one native routine and returns the 32 bytes it
  wrote into a freshly allocated output buffer.
*/
module Multihashing {
  import opened Wrappers
  import opened Arguments
  import opened Natives
  import opened Registry

  /** The exceptions an entry point throws. Argument positions count from 1. */
  datatype Error =
    | TooFewArguments(minimum: nat)
    | NotABuffer(position: nat)
    | WrongLength(required: nat)
    | NotABoolean(position: nat)
    | NotAnUnsignedInteger(position: nat)
    | NotAFunction(name: string)

  /** The text of the exception `n` throws for `e`. */
  function Message(n: Name, e: Error): string {
    match e
    case TooFewArguments(_) =>
      (match n
       case Scrypt => "You must provide buffer to hash, N value, and R value"
       case Neoscrypt => "You must provide buffer to hash and a profile value"
       case ScryptN => "You must provide buffer to hash and N factor."
       case Boolberry => "You must provide two arguments."
       case _ => "You must provide one argument.")
    case NotABuffer(p) =>
      if n == Boolberry then
        (if p == 1 then "Argument 1 should be a buffer object." else "Argument 2 should be a buffer object.")
      else "Argument should be a buffer object."
    case WrongLength(_) => "Buffer length should be exactly 80 bytes."
    case NotABoolean(_) => "Argument 2 should be a boolean"
    case NotAnUnsignedInteger(_) => "Argument 3 should be an unsigned integer."
    case NotAFunction(s) => s + " is not a function"
  }

  /** The only call with undefined behaviour: `1 << nFactor` with nFactor >= 32, in scryptn. */
  predicate DefinedCall(n: Name, args: seq<ArgValue>) {
    ShiftDefined(ConventionOf(n), args)
  }

  /** The single-buffer entry points: `routine(input, output[, input_len])`. */
  function OneBufferEntry(args: seq<ArgValue>, routine: Routine, forwardsLength: bool): (r: Result<NativeCall, Error>)
    ensures |args| < 1 ==> r == Failure(TooFewArguments(1))
    ensures |args| >= 1 && !args[0].Buffer? ==> r == Failure(NotABuffer(1))
    ensures r.Success? <==> Conforms(SingleInput(routine, forwardsLength), args)
    ensures r.Success? ==> r.value == Expected(SingleInput(routine, forwardsLength), args)
  {
    if |args| < 1 then Failure(TooFewArguments(1))
    else if !args[0].Buffer? then Failure(NotABuffer(1))
    else
      var input := args[0].bytes;
      if forwardsLength then Success(WithLength(routine, input, Len32(|input|)))
      else Success(WithoutLength(routine, input))
  }

  /** `scrypt(buffer, N, R)`. */
  function ScryptEntry(args: seq<ArgValue>): (r: Result<NativeCall, Error>)
    ensures |args| < 3 ==> r == Failure(TooFewArguments(3))
    ensures |args| >= 3 && !args[0].Buffer? ==> r == Failure(NotABuffer(1))
    ensures r.Success? <==> Conforms(ScryptParams, args)
    ensures r.Success? ==> r.value == Expected(ScryptParams, args)
  {
    if |args| < 3 then Failure(TooFewArguments(3))
    else if !args[0].Buffer? then Failure(NotABuffer(1))
    else
      var input := args[0].bytes;
      Success(ScryptCall(input, NumberValue(args[1]), NumberValue(args[2]), Len32(|input|)))
  }

  /**
    `neoscrypt(buffer, profile)`, whose buffer must hold `length` bytes: the
    length is checked before the profile is read.
  */
  function NeoscryptEntry(args: seq<ArgValue>, length: nat): (r: Result<NativeCall, Error>)
    ensures |args| < 2 ==> r == Failure(TooFewArguments(2))
    ensures |args| >= 2 && !args[0].Buffer? ==> r == Failure(NotABuffer(1))
    ensures |args| >= 2 && args[0].Buffer? && Len32(|args[0].bytes|) != length ==>
      r == Failure(WrongLength(length))
    ensures r.Success? <==> Conforms(FixedInput(length), args)
    ensures r.Success? ==> r.value == Expected(FixedInput(length), args)
  {
    if |args| < 2 then Failure(TooFewArguments(2))
    else if !args[0].Buffer? then Failure(NotABuffer(1))
    else if Len32(|args[0].bytes|) != length then Failure(WrongLength(length))
    else Success(NeoscryptCall(args[0].bytes, NumberValue(args[1])))
  }

  /** `scryptn(buffer, nFactor)`: N is `1 << nFactor` and R is fixed at 1. */
  function ScryptNEntry(args: seq<ArgValue>): (r: Result<NativeCall, Error>)
    requires ShiftDefined(ScryptFactor, args)
    ensures |args| < 2 ==> r == Failure(TooFewArguments(2))
    ensures |args| >= 2 && !args[0].Buffer? ==> r == Failure(NotABuffer(1))
    ensures r.Success? <==> Conforms(ScryptFactor, args)
    ensures r.Success? ==> r.value == Expected(ScryptFactor, args)
  {
    if |args| < 2 then Failure(TooFewArguments(2))
    else if !args[0].Buffer? then Failure(NotABuffer(1))
    else
      var input := args[0].bytes;
      Success(ScryptCall(input, ShiftOne(NumberValue(args[1])), 1, Len32(|input|)))
  }

  /**
    `cryptonight(buffer[, fast])`, hashing with `fast` when the flag is true
    and with `standard` otherwise: the flag is checked before the buffer.
  */
  function CryptonightEntry(args: seq<ArgValue>, standard: Routine, fast: Routine): (r: Result<NativeCall, Error>)
    ensures |args| < 1 ==> r == Failure(TooFewArguments(1))
    ensures |args| >= 2 && !args[1].Bool? ==> r == Failure(NotABoolean(2))
    ensures |args| >= 1 && (|args| == 1 || args[1].Bool?) && !args[0].Buffer? ==> r == Failure(NotABuffer(1))
    ensures r.Success? <==> Conforms(OptionalFlag(standard, fast), args)
    ensures r.Success? ==> r.value == Expected(OptionalFlag(standard, fast), args)
  {
    if |args| < 1 then Failure(TooFewArguments(1))
    else if |args| >= 2 && !args[1].Bool? then Failure(NotABoolean(2))
    else
      var useFast := |args| >= 2 && args[1].flag;
      if !args[0].Buffer? then Failure(NotABuffer(1))
      else
        var input := args[0].bytes;
        Success(WithLength(if useFast then fast else standard, input, Len32(|input|)))
  }

  /** `boolberry(buffer, scratchpad[, height])`, the height defaulting to `defaultHeight`. */
  function BoolberryEntry(args: seq<ArgValue>, defaultHeight: uint32): (r: Result<NativeCall, Error>)
    ensures |args| < 2 ==> r == Failure(TooFewArguments(2))
    ensures |args| >= 2 && !args[0].Buffer? ==> r == Failure(NotABuffer(1))
    ensures |args| >= 2 && args[0].Buffer? && !args[1].Buffer? ==> r == Failure(NotABuffer(2))
    ensures |args| >= 3 && args[0].Buffer? && args[1].Buffer? && !args[2].Uint32? ==>
      r == Failure(NotAnUnsignedInteger(3))
    ensures r.Success? <==> Conforms(TwoBuffers(defaultHeight), args)
    ensures r.Success? ==> r.value == Expected(TwoBuffers(defaultHeight), args)
  {
    if |args| < 2 then Failure(TooFewArguments(2))
    else if !args[0].Buffer? then Failure(NotABuffer(1))
    else if !args[1].Buffer? then Failure(NotABuffer(2))
    else if |args| >= 3 && !args[2].Uint32? then Failure(NotAnUnsignedInteger(3))
    else
      var height: uint32 := if |args| >= 3 then args[2].uint else defaultHeight;
      var input := args[0].bytes;
      var spad := args[1].bytes;
      Success(BoolberryCall(input, Len32(|input|), spad, Len64(|spad|), height))
  }

  /**
    The validation and dispatch of entry point `n` called with `args`: the
    native call it makes, or the exception it throws first. The entry points
    of one argument shape run the same checks; the registry supplies each
    one's routine and constants (neoscrypt's 80 bytes, cryptonight's two
    routines, boolberry's default height).
  */
  function Dispatch(n: Name, args: seq<ArgValue>): (r: Result<NativeCall, Error>)
    requires DefinedCall(n, args)
    ensures |args| < MinArgs(ConventionOf(n)) ==> r == Failure(TooFewArguments(MinArgs(ConventionOf(n))))
    ensures r.Success? <==> Conforms(ConventionOf(n), args)
    ensures r.Success? ==> r.value == Expected(ConventionOf(n), args)
    ensures r.Failure? ==> !r.error.NotAFunction?
  {
    match ConventionOf(n)
    case SingleInput(routine, forwardsLength) => OneBufferEntry(args, routine, forwardsLength)
    case ScryptParams => ScryptEntry(args)
    case ScryptFactor => ScryptNEntry(args)
    case FixedInput(length) => NeoscryptEntry(args, length)
    case OptionalFlag(standard, fast) => CryptonightEntry(args, standard, fast)
    case TwoBuffers(defaultHeight) => BoolberryEntry(args, defaultHeight)
  }

  /**
    What one call observably does: its return value or exception, the
    native calls it made, and the bytes it allocated for output.
  */
  datatype Effects = Effects(result: Result<Bytes, Error>, invoked: seq<NativeCall>, outputBytes: nat)

  /** Calling entry point `n` with `args` against the algorithm library `lib`. */
  function Call(lib: Library, n: Name, args: seq<ArgValue>): (e: Effects)
    requires DefinedCall(n, args)
    ensures e.result.Failure? <==> e.invoked == []
    ensures e.result.Failure? ==> e.outputBytes == 0 && Dispatch(n, args) == Failure(e.result.error)
    ensures e.result.Success? ==>
      && |e.result.value| == 32
      && e.outputBytes == 32
      && Conforms(ConventionOf(n), args)
      && e.invoked == [Expected(ConventionOf(n), args)]
      && e.result.value == Run(lib, e.invoked[0])
  {
    match Dispatch(n, args)
    case Failure(err) => Effects(Failure(err), [], 0)
    case Success(call) => Effects(Success(Run(lib, call)), [call], 32)
  }
}
