/**
  The algorithm registry: every entry point the addon defines, its
  JavaScript name, and the calling convention it follows. This table is the
  reference the per-entry-point validation in `Multihashing` is proved
  against.
*/
module Registry {
  import opened Wrappers
  import opened Arguments
  import opened Natives

  /** The 35 entry points defined in the addon, exported or not. */
  datatype Name =
    | Quark | X11 | X5 | Scrypt | ScryptN | Neoscrypt | Yescrypt | Keccak
    | Bcrypt | Skein | Groestl | GroestlMyriad | Blake | Blake2s | Dcrypt
    | Fugue | Qubit | S3 | Hefty1 | Shavite3 | Cryptonight | X13 | X14
    | Boolberry | Nist5 | Sha1 | X15 | X17 | Fresh | WhirlpoolX | Zr5 | Jh
    | C11 | Lyra2RE | Lyra2RE2

  /** The name under which the entry point is (or would be) exported. */
  function JsName(n: Name): string {
    match n
    case Quark => "quark"
    case X11 => "x11"
    case X5 => "x5"
    case Scrypt => "scrypt"
    case ScryptN => "scryptn"
    case Neoscrypt => "neoscrypt"
    case Yescrypt => "yescrypt"
    case Keccak => "keccak"
    case Bcrypt => "bcrypt"
    case Skein => "skein"
    case Groestl => "groestl"
    case GroestlMyriad => "groestlmyriad"
    case Blake => "blake"
    case Blake2s => "blake2s"
    case Dcrypt => "dcrypt"
    case Fugue => "fugue"
    case Qubit => "qubit"
    case S3 => "s3"
    case Hefty1 => "hefty1"
    case Shavite3 => "shavite3"
    case Cryptonight => "cryptonight"
    case X13 => "x13"
    case X14 => "x14"
    case Boolberry => "boolberry"
    case Nist5 => "nist5"
    case Sha1 => "sha1"
    case X15 => "x15"
    case X17 => "x17"
    case Fresh => "fresh"
    case WhirlpoolX => "whirlpoolx"
    case Zr5 => "zr5"
    case Jh => "jh"
    case C11 => "c11"
    case Lyra2RE => "lyra2re"
    case Lyra2RE2 => "lyra2re2"
  }

  /** The longest JavaScript name is "groestlmyriad", of 13 characters. */
  lemma JsNameShort(n: Name)
    ensures |JsName(n)| <= 13
  {
  }

  /** The entry point whose JavaScript name is `key`, if any. */
  function EntryNamed(key: string): Option<Name> {
    match key
    case "quark" => Some(Quark)
    case "x11" => Some(X11)
    case "x5" => Some(X5)
    case "scrypt" => Some(Scrypt)
    case "scryptn" => Some(ScryptN)
    case "neoscrypt" => Some(Neoscrypt)
    case "yescrypt" => Some(Yescrypt)
    case "keccak" => Some(Keccak)
    case "bcrypt" => Some(Bcrypt)
    case "skein" => Some(Skein)
    case "groestl" => Some(Groestl)
    case "groestlmyriad" => Some(GroestlMyriad)
    case "blake" => Some(Blake)
    case "blake2s" => Some(Blake2s)
    case "dcrypt" => Some(Dcrypt)
    case "fugue" => Some(Fugue)
    case "qubit" => Some(Qubit)
    case "s3" => Some(S3)
    case "hefty1" => Some(Hefty1)
    case "shavite3" => Some(Shavite3)
    case "cryptonight" => Some(Cryptonight)
    case "x13" => Some(X13)
    case "x14" => Some(X14)
    case "boolberry" => Some(Boolberry)
    case "nist5" => Some(Nist5)
    case "sha1" => Some(Sha1)
    case "x15" => Some(X15)
    case "x17" => Some(X17)
    case "fresh" => Some(Fresh)
    case "whirlpoolx" => Some(WhirlpoolX)
    case "zr5" => Some(Zr5)
    case "jh" => Some(Jh)
    case "c11" => Some(C11)
    case "lyra2re" => Some(Lyra2RE)
    case "lyra2re2" => Some(Lyra2RE2)
    case _ => None
  }

  /** Looking up an entry point's JavaScript name finds that entry point. */
  lemma EntryNamedJsName(n: Name)
    ensures EntryNamed(JsName(n)) == Some(n)
  {
    if n in {Quark, X11, X5, Scrypt, ScryptN, Neoscrypt, Yescrypt, Keccak, Bcrypt, Skein, Groestl, GroestlMyriad} {
      EntryNamedJsNameEarly(n);
    } else if n in {Blake, Blake2s, Dcrypt, Fugue, Qubit, S3, Hefty1, Shavite3, Cryptonight, X13, X14, Boolberry} {
      EntryNamedJsNameMiddle(n);
    } else {
      EntryNamedJsNameLate(n);
    }
  }

  lemma EntryNamedJsNameEarly(n: Name)
    requires n in {Quark, X11, X5, Scrypt, ScryptN, Neoscrypt, Yescrypt, Keccak, Bcrypt, Skein, Groestl, GroestlMyriad}
    ensures EntryNamed(JsName(n)) == Some(n)
  {
    match n
    case Quark =>
    case X11 =>
    case X5 =>
    case Scrypt =>
    case ScryptN =>
    case Neoscrypt =>
    case Yescrypt =>
    case Keccak =>
    case Bcrypt =>
    case Skein =>
    case Groestl =>
    case GroestlMyriad =>
    case _ =>
  }

  lemma EntryNamedJsNameMiddle(n: Name)
    requires n in {Blake, Blake2s, Dcrypt, Fugue, Qubit, S3, Hefty1, Shavite3, Cryptonight, X13, X14, Boolberry}
    ensures EntryNamed(JsName(n)) == Some(n)
  {
    match n
    case Blake =>
    case Blake2s =>
    case Dcrypt =>
    case Fugue =>
    case Qubit =>
    case S3 =>
    case Hefty1 =>
    case Shavite3 =>
    case Cryptonight =>
    case X13 =>
    case X14 =>
    case Boolberry =>
    case _ =>
  }

  lemma EntryNamedJsNameLate(n: Name)
    requires n !in {Quark, X11, X5, Scrypt, ScryptN, Neoscrypt, Yescrypt, Keccak, Bcrypt, Skein, Groestl, GroestlMyriad, Blake, Blake2s, Dcrypt, Fugue, Qubit, S3, Hefty1, Shavite3, Cryptonight, X13, X14, Boolberry}
    ensures EntryNamed(JsName(n)) == Some(n)
  {
    match n
    case Nist5 =>
    case Sha1 =>
    case X15 =>
    case X17 =>
    case Fresh =>
    case WhirlpoolX =>
    case Zr5 =>
    case Jh =>
    case C11 =>
    case Lyra2RE =>
    case Lyra2RE2 =>
    case _ =>
  }

  /** The argument shape an entry point accepts. */
  datatype Convention =
      /** `(buffer)`, hashed by `routine`, with or without the length. */
    | SingleInput(routine: Routine, forwardsLength: bool)
      /** `(buffer, N, R)`. */
    | ScryptParams
      /** `(buffer, nFactor)`, with N = 1 << nFactor and R = 1. */
    | ScryptFactor
      /** `(buffer of exactly `length` bytes, profile)`. */
    | FixedInput(length: nat)
      /** `(buffer[, flag])`; the flag, when true, selects `fast`. */
    | OptionalFlag(standard: Routine, fast: Routine)
      /** `(buffer, scratchpad[, height])`. */
    | TwoBuffers(defaultHeight: uint32)

  function ConventionOf(n: Name): Convention {
    match n
    case Quark => SingleInput(QuarkHash, true)
    case X11 => SingleInput(X11Hash, true)
    case X5 => SingleInput(X11Hash, true)
    case Scrypt => ScryptParams
    case ScryptN => ScryptFactor
    case Neoscrypt => FixedInput(80)
    case Yescrypt => SingleInput(YescryptHash, false)
    case Keccak => SingleInput(KeccakHash, true)
    case Bcrypt => SingleInput(BcryptHash, false)
    case Skein => SingleInput(SkeinHash, true)
    case Groestl => SingleInput(GroestlHash, true)
    case GroestlMyriad => SingleInput(GroestlMyriadHash, true)
    case Blake => SingleInput(BlakeHash, true)
    case Blake2s => SingleInput(Blake2sHash, true)
    case Dcrypt => SingleInput(DcryptHash, true)
    case Fugue => SingleInput(FugueHash, true)
    case Qubit => SingleInput(QubitHash, true)
    case S3 => SingleInput(S3Hash, true)
    case Hefty1 => SingleInput(Hefty1Hash, true)
    case Shavite3 => SingleInput(Shavite3Hash, true)
    case Cryptonight => OptionalFlag(CryptonightHash, CryptonightFastHash)
    case X13 => SingleInput(X13Hash, true)
    case X14 => SingleInput(X14Hash, true)
    case Boolberry => TwoBuffers(1)
    case Nist5 => SingleInput(Nist5Hash, true)
    case Sha1 => SingleInput(Sha1Hash, true)
    case X15 => SingleInput(X15Hash, true)
    case X17 => SingleInput(X17Hash, true)
    case Fresh => SingleInput(FreshHash, true)
    case WhirlpoolX => SingleInput(WhirlpoolXHash, true)
    case Zr5 => SingleInput(Zr5Hash, true)
    case Jh => SingleInput(JhHash, true)
    case C11 => SingleInput(C11Hash, false)
    case Lyra2RE => SingleInput(Lyra2REHash, false)
    case Lyra2RE2 => SingleInput(Lyra2RE2Hash, false)
  }

  /** scryptn is the only entry point that derives N by a shift. */
  lemma OnlyScryptNShifts(n: Name)
    ensures ConventionOf(n).ScryptFactor? <==> n == ScryptN
  {
  }

  /** The fewest arguments a convention accepts. */
  function MinArgs(c: Convention): nat {
    match c
    case SingleInput(_, _) => 1
    case ScryptParams => 3
    case ScryptFactor => 2
    case FixedInput(_) => 2
    case OptionalFlag(_, _) => 1
    case TwoBuffers(_) => 2
  }

  /** The most arguments a convention reads; any further ones are ignored. */
  function MaxArgs(c: Convention): nat {
    match c
    case SingleInput(_, _) => 1
    case ScryptParams => 3
    case ScryptFactor => 2
    case FixedInput(_) => 2
    case OptionalFlag(_, _) => 2
    case TwoBuffers(_) => 3
  }

  /** The arguments satisfy every check the convention makes. */
  predicate Conforms(c: Convention, args: seq<ArgValue>) {
    && |args| >= MinArgs(c)
    && args[0].Buffer?
    && match c
       case FixedInput(len) => Len32(|args[0].bytes|) == len
       case OptionalFlag(_, _) => |args| >= 2 ==> args[1].Bool?
       case TwoBuffers(_) => args[1].Buffer? && (|args| >= 3 ==> args[2].Uint32?)
       case _ => true
  }

  /** The shift `1 << nFactor` a factor-style call performs is defined. */
  predicate ShiftDefined(c: Convention, args: seq<ArgValue>) {
    c.ScryptFactor? && |args| >= 2 && args[0].Buffer? ==> NumberValue(args[1]) < 32
  }

  /** The native call a conforming argument list is forwarded as. */
  function Expected(c: Convention, args: seq<ArgValue>): NativeCall
    requires Conforms(c, args) && ShiftDefined(c, args)
  {
    var input := args[0].bytes;
    match c
    case SingleInput(f, withLen) =>
      if withLen then WithLength(f, input, Len32(|input|)) else WithoutLength(f, input)
    case ScryptParams => ScryptCall(input, NumberValue(args[1]), NumberValue(args[2]), Len32(|input|))
    case ScryptFactor => ScryptCall(input, ShiftOne(NumberValue(args[1])), 1, Len32(|input|))
    case FixedInput(_) => NeoscryptCall(input, NumberValue(args[1]))
    case OptionalFlag(standard, fast) =>
      WithLength(if |args| >= 2 && args[1].flag then fast else standard, input, Len32(|input|))
    case TwoBuffers(h) =>
      var spad := args[1].bytes;
      BoolberryCall(input, Len32(|input|), spad, Len64(|spad|), if |args| >= 3 then args[2].uint else h)
  }
}
