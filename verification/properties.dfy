/**
  Properties of the entry points: the order of their checks, their
  defaults, the parameters they derive, and what they forward.
*/
module Properties {
  import opened Wrappers
  import opened Arguments
  import opened Natives
  import opened Registry
  import opened Multihashing

  /**
    Too few arguments is reported before anything else is looked at, and
    such a call invokes nothing and allocates nothing. The minimum is 3 for
    scrypt, 2 for neoscrypt, scryptn and boolberry, and 1 for the rest.
  */
  lemma TooFewArgumentsFirst(lib: Library, n: Name, args: seq<ArgValue>)
    requires |args| < (if n == Scrypt then 3 else if n in {Neoscrypt, ScryptN, Boolberry} then 2 else 1)
    ensures DefinedCall(n, args)
    ensures Call(lib, n, args)
         == Effects(Failure(TooFewArguments(MinArgs(ConventionOf(n)))), [], 0)
    ensures MinArgs(ConventionOf(n)) > |args|
  {
    assert MinArgs(ConventionOf(n)) > |args|;
  }

  /** A call with enough arguments is never rejected for their number. */
  lemma EnoughArgumentsPassCount(n: Name, args: seq<ArgValue>)
    requires DefinedCall(n, args)
    requires |args| >= (if n == Scrypt then 3 else if n in {Neoscrypt, ScryptN, Boolberry} then 2 else 1)
    ensures !(Dispatch(n, args).Failure? && Dispatch(n, args).error.TooFewArguments?)
  {
  }

  /**
    Once the count is met, a first argument that is not a Buffer fails the
    call before any native routine runs and before the output is
    allocated. Only cryptonight looks at its flag first.
  */
  lemma FirstArgumentMustBeBuffer(lib: Library, n: Name, args: seq<ArgValue>)
    requires |args| >= MinArgs(ConventionOf(n))
    requires !args[0].Buffer?
    requires n == Cryptonight ==> |args| < 2 || args[1].Bool?
    ensures DefinedCall(n, args)
    ensures Call(lib, n, args) == Effects(Failure(NotABuffer(1)), [], 0)
  {
    assert Dispatch(n, args) == Failure(NotABuffer(1));
  }

  /**
    neoscrypt, given a Buffer and a profile, fails exactly when the 32-bit
    length is not 80, whatever the profile; otherwise it forwards the input
    and the profile to `neoscrypt`.
  */
  lemma NeoscryptLengthRule(args: seq<ArgValue>)
    requires |args| >= 2 && args[0].Buffer?
    ensures DefinedCall(Neoscrypt, args)
    ensures Dispatch(Neoscrypt, args).Failure? <==> Len32(|args[0].bytes|) != 80
    ensures Dispatch(Neoscrypt, args).Failure? ==> Dispatch(Neoscrypt, args).error == WrongLength(80)
    ensures Dispatch(Neoscrypt, args).Success? ==>
      Dispatch(Neoscrypt, args).value == NeoscryptCall(args[0].bytes, NumberValue(args[1]))
  {
  }

  /** For any buffer shorter than 4 GiB the length check is exact. */
  lemma NeoscryptNeedsExactly80Bytes(lib: Library, b: Bytes, bn: uint32, profile: ArgValue)
    requires |b| < 0x1_0000_0000
    ensures DefinedCall(Neoscrypt, [Buffer(b, bn), profile])
    ensures Call(lib, Neoscrypt, [Buffer(b, bn), profile]).result.Success? <==> |b| == 80
    ensures Call(lib, Neoscrypt, [Buffer(b, bn), profile]).result.Success? ==>
      |Call(lib, Neoscrypt, [Buffer(b, bn), profile]).result.value| == 32
  {
    NeoscryptLengthRule([Buffer(b, bn), profile]);
  }

  /**
    The check compares the length after it is stored in a `uint32_t`, so a
    buffer 2^32 bytes longer than 80 passes it.
  */
  lemma NeoscryptLengthWraps(bn: uint32, profile: ArgValue)
    ensures var b := seq(0x1_0000_0050, _ => 0 as bv8);
      Dispatch(Neoscrypt, [Buffer(b, bn), profile]).Success?
  {
  }

  /**
    scryptn(S, k) makes the same native call as scrypt(S, 1 << k, 1): N is
    2^k, not 2^(k+1), and R is always 1.
  */
  lemma ScryptNIsScrypt(args: seq<ArgValue>)
    requires |args| >= 2 && args[0].Buffer?
    requires NumberValue(args[1]) < 32
    ensures DefinedCall(ScryptN, args)
    ensures Dispatch(ScryptN, args)
         == Dispatch(Scrypt, [args[0], Uint32(ShiftOne(NumberValue(args[1]))), Uint32(1)])
    ensures Dispatch(ScryptN, args).value.n == Pow2(NumberValue(args[1]))
  {
  }

  /** scryptn(S, 9) uses N = 512, so it is not scrypt(S, 1024, 1). */
  lemma ScryptNNineIsNot1024(b: Bytes, bn: uint32)
    ensures DefinedCall(ScryptN, [Buffer(b, bn), Uint32(9)])
    ensures Dispatch(ScryptN, [Buffer(b, bn), Uint32(9)]).value.n == 512
    ensures Dispatch(ScryptN, [Buffer(b, bn), Uint32(9)])
         != Dispatch(Scrypt, [Buffer(b, bn), Uint32(1024), Uint32(1)])
  {
    assert Pow2(1) == 2;
    Pow2Add(1, 1);
    Pow2Add(2, 2);
    Pow2Add(1, 4);
    Pow2Add(4, 5);
  }

  /**
    cryptonight rejects a present second argument that is not a boolean
    before it looks at the first argument at all.
  */
  lemma CryptonightFlagCheckedFirst(lib: Library, args: seq<ArgValue>)
    requires |args| >= 2 && !args[1].Bool?
    ensures DefinedCall(Cryptonight, args)
    ensures Call(lib, Cryptonight, args) == Effects(Failure(NotABoolean(2)), [], 0)
  {
  }

  /** Without a flag cryptonight behaves as with `false`. */
  lemma CryptonightDefaultsToStandard(lib: Library, a: ArgValue)
    ensures DefinedCall(Cryptonight, [a]) && DefinedCall(Cryptonight, [a, Bool(false)])
    ensures Call(lib, Cryptonight, [a]) == Call(lib, Cryptonight, [a, Bool(false)])
  {
  }

  /**
    With a Buffer, the flag selects `cryptonight_fast_hash` when true and
    `cryptonight_hash` otherwise, always forwarding the input and its length.
  */
  lemma CryptonightRoutineChoice(b: Bytes, bn: uint32, flag: bool, rest: seq<ArgValue>)
    ensures DefinedCall(Cryptonight, [Buffer(b, bn), Bool(flag)] + rest)
    ensures Dispatch(Cryptonight, [Buffer(b, bn), Bool(flag)] + rest)
         == Success(WithLength(if flag then CryptonightFastHash else CryptonightHash, b, Len32(|b|)))
  {
  }

  /**
    boolberry checks its first argument, then its second, then its third:
    a non-Buffer first argument is reported whatever follows it, and a
    non-Buffer second argument whatever the height.
  */
  lemma BoolberryCheckOrder(args: seq<ArgValue>)
    requires |args| >= 2
    ensures DefinedCall(Boolberry, args)
    ensures !args[0].Buffer? ==> Dispatch(Boolberry, args) == Failure(NotABuffer(1))
    ensures args[0].Buffer? && !args[1].Buffer? ==> Dispatch(Boolberry, args) == Failure(NotABuffer(2))
    ensures args[0].Buffer? && args[1].Buffer? && |args| >= 3 && !args[2].Uint32? ==>
      Dispatch(Boolberry, args) == Failure(NotAnUnsignedInteger(3))
  {
  }

  /** Without a height boolberry behaves as with height 1. */
  lemma BoolberryDefaultHeight(lib: Library, input: ArgValue, scratchpad: ArgValue)
    ensures DefinedCall(Boolberry, [input, scratchpad]) && DefinedCall(Boolberry, [input, scratchpad, Uint32(1)])
    ensures Call(lib, Boolberry, [input, scratchpad]) == Call(lib, Boolberry, [input, scratchpad, Uint32(1)])
  {
  }

  /**
    boolberry forwards input, input length, scratchpad, scratchpad length
    and height, in that order, to `boolberry_hash`.
  */
  lemma BoolberryForwarding(lib: Library, b: Bytes, bn: uint32, s: Bytes, sn: uint32, h: uint32, rest: seq<ArgValue>)
    ensures DefinedCall(Boolberry, [Buffer(b, bn), Buffer(s, sn), Uint32(h)] + rest)
    ensures Call(lib, Boolberry, [Buffer(b, bn), Buffer(s, sn), Uint32(h)] + rest).result
         == Success(lib.boolberry(b, Len32(|b|), s, Len64(|s|), h))
  {
  }

  /** x5 hashes with `x11_hash`, so it behaves exactly as x11. */
  lemma X5IsX11(lib: Library, args: seq<ArgValue>)
    ensures DefinedCall(X5, args) && DefinedCall(X11, args)
    ensures Call(lib, X5, args) == Call(lib, X11, args)
    ensures Dispatch(X5, args).Success? ==> Dispatch(X5, args).value.routine == X11Hash
  {
  }

  /** Arguments past the last one an entry point reads change nothing. */
  lemma ExtraArgumentsIgnored(n: Name, args: seq<ArgValue>, extra: seq<ArgValue>)
    requires |args| >= MaxArgs(ConventionOf(n))
    requires DefinedCall(n, args)
    ensures DefinedCall(n, args + extra)
    ensures Dispatch(n, args + extra) == Dispatch(n, args)
  {
  }
}
