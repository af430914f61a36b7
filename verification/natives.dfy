/**
  The native hash routines the entry points call, treated as opaque. A call
  is described by a `NativeCall` value that records which routine is invoked
  and which values are forwarded to it, in the routine's own argument order.
  The routines themselves are supplied as a `Library` of functions.
*/
module Natives {
  import opened Arguments

  /** The 32 bytes a routine writes into the output region it is given. */
  type Digest = s: Bytes | |s| == 32 witness seq(32, _ => 0 as bv8)

  /** The single-input routines, named after their C functions. */
  datatype Routine =
    | QuarkHash | X11Hash | YescryptHash | KeccakHash | BcryptHash
    | SkeinHash | GroestlHash | GroestlMyriadHash | BlakeHash | Blake2sHash
    | DcryptHash | FugueHash | QubitHash | S3Hash | Hefty1Hash
    | Shavite3Hash | CryptonightHash | CryptonightFastHash | X13Hash | X14Hash
    | Nist5Hash | Sha1Hash | X15Hash | X17Hash | FreshHash
    | WhirlpoolXHash | Lyra2REHash | Lyra2RE2Hash | Zr5Hash | JhHash | C11Hash

  /**
    One invocation of the algorithm library.
    - `WithLength`: `routine(input, output, input_len)`.
    - `WithoutLength`: `routine(input, output)`; the routine reads a size of
      its own choosing from the start of the input, which may exceed the
      Buffer.
    - `ScryptCall`: `scrypt_N_R_1_256(input, output, N, R, input_len)`.
    - `NeoscryptCall`: `neoscrypt(input, output, profile)`.
    - `BoolberryCall`: `boolberry_hash(input, input_len, scratchpad,
      spad_len, output, height)`.
  */
  datatype NativeCall =
    | WithLength(routine: Routine, input: Bytes, inputLen: uint32)
    | WithoutLength(routine: Routine, input: Bytes)
    | ScryptCall(input: Bytes, n: uint32, r: uint32, inputLen: uint32)
    | NeoscryptCall(input: Bytes, profile: uint32)
    | BoolberryCall(input: Bytes, inputLen: uint32, scratchpad: Bytes, spadLen: uint64, height: uint32)

  /** The algorithm library: one function per call shape. */
  datatype Library = Library(
    withLength: (Routine, Bytes, uint32) -> Digest,
    withoutLength: (Routine, Bytes) -> Digest,
    scrypt: (Bytes, uint32, uint32, uint32) -> Digest,
    neoscrypt: (Bytes, uint32) -> Digest,
    boolberry: (Bytes, uint32, Bytes, uint64, uint32) -> Digest)

  /** The bytes `call` leaves in the output region. */
  function Run(lib: Library, call: NativeCall): Digest {
    match call
    case WithLength(f, input, len) => lib.withLength(f, input, len)
    case WithoutLength(f, input) => lib.withoutLength(f, input)
    case ScryptCall(input, n, r, len) => lib.scrypt(input, n, r, len)
    case NeoscryptCall(input, profile) => lib.neoscrypt(input, profile)
    case BoolberryCall(input, len, spad, spadLen, height) => lib.boolberry(input, len, spad, spadLen, height)
  }
}
