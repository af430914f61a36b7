# node-multi-hashing: the dispatch layer, modelled in Dafny

The addon exposes about thirty proof-of-work hash algorithms to JavaScript.
Each entry point in `multihashing.cc` takes JavaScript arguments and does
the same few things:

1. It checks the argument count.
2. It checks that the first argument is a Buffer. For boolberry it also checks the second.
3. It applies its own checks, defaults and derivations.
4. It calls one native hash routine with a particular argument order.
5. It returns a freshly allocated 32-byte Buffer.

The addon's `init` then exports 31 of the 35 entry points by name.

The model keeps this decision logic and treats the hash routines as opaque.

- `Arguments` holds the JavaScript argument values. `ArgValue` tells apart a Buffer (any value `Buffer::HasInstance` accepts, a plain `Uint8Array` included), a boolean, a number for which `IsUint32()` holds, and any other value. Each value except a boolean carries the `unsigned int` it yields when an entry point reads it as a number. The module also defines the fixed-width integers the routines take: the buffer length stored in a `uint32_t` (or in a `uint64_t` for the boolberry scratchpad) and `1 << nFactor`.
- `Natives` holds the native routines. A `NativeCall` records which routine is called and with which forwarded values. The routines themselves form a `Library` of functions that each return 32 bytes; the library is a parameter of every call.
- `Registry` is the table of entry points: their names, their JavaScript names, and the calling convention each follows with the routine and constants it uses. It states declaratively which argument lists a convention accepts (`Conforms`) and which call it makes for them (`Expected`). `EntryNamed` looks an entry point up by its JavaScript name.
- `Multihashing` has one function per argument shape. Each one checks in the addon's order and throws the addon's first error. `Dispatch` routes each of the 35 entry points to its shape, with the routine and constants the registry gives it. `Call` adds what the caller observes: the result or the exception, the native calls made, and the output bytes allocated.
- `Exports` models the exports object. `Install` performs the sequence of `Nan::Set` calls. `Invoke` calls a property of that object by name. The property is an exported entry point, a method inherited from `Object.prototype`, or missing.
- `Properties` holds the lemmas on check order, defaults, derivations and forwarding.

Everything in the model is a pure function, so in the model the same entry point, arguments and library always give the same result. The addon itself does not promise this; see the first two lines under "## Left out".

## Model

| member | source | states |
|---|---|---|
| Arguments.Len32 | multihashing.cc:63 | Storing a buffer length in a `uint32_t` keeps any length below 2^32 and otherwise agrees with it modulo 2^32 |
| Arguments.ShiftOne | multihashing.cc:178 | Shifting a one bit left by k < 32 places in a 32-bit word and reading the result as unsigned gives 2^k |
| Arguments.Len64 | multihashing.cc:563 | Storing the scratchpad length in a `uint64_t` keeps any length below 2^64 and otherwise agrees with it modulo 2^64 |
| Multihashing.OneBufferEntry | multihashing.cc:50-67 | A single-buffer entry point fails with TooFewArguments(1) when called without arguments. It succeeds exactly when its first argument is a Buffer, and then calls its routine on the input, with the 32-bit length when the routine takes one |
| Multihashing.ScryptEntry | multihashing.cc:110-132 | scrypt fails with TooFewArguments(3) below three arguments and then with the Buffer error for a non-Buffer input. It succeeds exactly on the arguments the ScryptParams convention accepts and then calls `scrypt_N_R_1_256` with the number readings of arguments 2 and 3 and the 32-bit length |
| Multihashing.NeoscryptEntry | multihashing.cc:134-157 | neoscrypt fails with TooFewArguments(2), then the Buffer error, then the length error when the 32-bit length is not the required one. It succeeds exactly on conforming arguments and then calls `neoscrypt` with the input and the profile's number reading |
| Multihashing.ScryptNEntry | multihashing.cc:159-183 | scryptn fails with TooFewArguments(2), then the Buffer error. It succeeds exactly on conforming arguments and then calls `scrypt_N_R_1_256` with N = `1 << nFactor`, R = 1 and the 32-bit length |
| Multihashing.CryptonightEntry | multihashing.cc:464-493 | cryptonight fails with TooFewArguments(1), then with the boolean error for a present non-boolean second argument, and only then with the Buffer error. It succeeds exactly on conforming arguments and then calls the fast routine when the flag is true and the standard one otherwise |
| Multihashing.BoolberryEntry | multihashing.cc:535-568 | boolberry fails with TooFewArguments(2), then the Buffer error for argument 1, then for argument 2, then the unsigned-integer error for a present non-uint32 argument 3. It succeeds exactly on conforming arguments and then calls `boolberry_hash` with both buffers, their lengths and the height |
| Multihashing.Dispatch | multihashing.cc:50-780 | Every entry point with fewer arguments than its minimum fails with TooFewArguments of that minimum. A call succeeds exactly when its arguments satisfy every check of the entry point's convention in the registry. A successful call makes exactly the native call the registry prescribes. No entry point raises a not-a-function error |
| Multihashing.Call | multihashing.cc:57-67 | A call fails exactly when it invokes no native routine, and a failed call allocates nothing. A successful call allocates one 32-byte region, invokes exactly the prescribed routine once, and returns exactly the 32 bytes that routine wrote |
| Registry.EntryNamedJsName | multihashing.cc:783-813 | Looking up the JavaScript name of an entry point finds that same entry point, so no two entry points share a name |
| Exports.Install | multihashing.cc:782-814 | After the registrations, every registered entry point is reachable under its JavaScript name. Every key holds an entry point of that name taken from the registered list. With pairwise distinct names there are exactly as many exports as registrations |
| Exports.ExportTable | multihashing.cc:783-813 | An entry point is exported exactly when it is not x5, x14, dcrypt or c11, and its exported name is bound to that same entry point |
| Exports.ExportCount | multihashing.cc:783-813 | The exports object holds exactly 31 functions |
| Exports.Invoke | multihashing.cc:782-814 | Calling a name on the exports object runs an inherited `Object.prototype` method exactly when the name is not exported but inherited. It is a not-a-function error that invokes and allocates nothing exactly when the name is neither exported nor inherited |
| Exports.InheritedMethodRuns | multihashing.cc:782-814 | No exported name shadows a method inherited from `Object.prototype`, so calling any of them, `toString` and `valueOf` included, runs the inherited method and not an entry point |
| Exports.InvokeUnexported | multihashing.cc:783-813 | Calling "x5", "x14", "dcrypt" or "c11" on the exports object is a not-a-function error that invokes and allocates nothing, although the addon defines these entry points |
| Exports.InvokeByName | multihashing.cc:783-813 | Calling an exported entry point through its exported name is the same as calling the entry point itself |
| Properties.TooFewArgumentsFirst | multihashing.cc:50-780 | With fewer than 3 arguments for scrypt, fewer than 2 for neoscrypt, scryptn and boolberry, or none for the others, the call fails with TooFewArguments before any other check. It invokes and allocates nothing |
| Properties.EnoughArgumentsPassCount | multihashing.cc:50-780 | When the minimum count is met, the call never fails for its number of arguments |
| Properties.FirstArgumentMustBeBuffer | multihashing.cc:50-780 | Once the count is met, a non-Buffer first argument fails with "Argument should be a buffer object" (for boolberry, argument 1). The call invokes and allocates nothing. For cryptonight this holds only when its flag check passes first |
| Properties.NeoscryptLengthRule | multihashing.cc:134-157 | neoscrypt with a Buffer fails exactly when the 32-bit length is not 80, whatever the profile, and the error is the length error. Otherwise it calls `neoscrypt(input, profile)` |
| Properties.NeoscryptNeedsExactly80Bytes | multihashing.cc:143-156 | For buffers below 4 GiB, neoscrypt succeeds exactly on 80-byte input and then returns 32 bytes |
| Properties.NeoscryptLengthWraps | multihashing.cc:143-146 | A buffer of 2^32 + 80 bytes passes the 80-byte check, because the check compares the truncated length |
| Properties.ScryptNIsScrypt | multihashing.cc:159-183 | scryptn(S, k) makes the same native call as scrypt(S, 1 << k, 1), and its N is 2^k |
| Properties.ScryptNNineIsNot1024 | multihashing.cc:177-180 | scryptn(S, 9) uses N = `1 << 9` = 512, so it does not dispatch as scrypt(S, 1024, 1) |
| Properties.CryptonightFlagCheckedFirst | multihashing.cc:466-480 | A present second argument that is not a boolean fails cryptonight with the boolean error, whatever the first argument is. The call invokes and allocates nothing |
| Properties.CryptonightDefaultsToStandard | multihashing.cc:466-475 | cryptonight without a flag behaves exactly as with `false` |
| Properties.CryptonightRoutineChoice | multihashing.cc:477-490 | With a Buffer and a boolean flag, cryptonight calls `cryptonight_fast_hash` when the flag is true and `cryptonight_hash` otherwise. It forwards the input and its 32-bit length, and ignores further arguments |
| Properties.BoolberryCheckOrder | multihashing.cc:537-556 | boolberry reports a non-Buffer first argument whatever follows it. It then reports a non-Buffer second argument whatever the height. Only then does it reject a present non-uint32 third argument |
| Properties.BoolberryDefaultHeight | multihashing.cc:542-556 | boolberry without a height behaves exactly as with height 1 |
| Properties.BoolberryForwarding | multihashing.cc:558-567 | boolberry passes input, input length, scratchpad, scratchpad length and height to `boolberry_hash` in that order, and returns what it wrote |
| Properties.X5IsX11 | multihashing.cc:90-108 | x5 hashes with `x11_hash`, so every call of x5 behaves exactly as the same call of x11 |
| Properties.ExtraArgumentsIgnored | multihashing.cc:50-780 | Arguments past the last one an entry point reads never change its outcome |

## Behaviour worth knowing

- Line 178 computes N = `1 << nFactor` from the second argument. The commented-out line 177 would have used `1 << (getNfactor(input) + 1)`, a factor read from the input itself. So scryptn(S, 9) corresponds to scrypt(S, 512, 1).
- Numeric parameters of scrypt, scryptn and neoscrypt are coerced with `Nan::To<Number>`, never type-checked, so these entry points throw no type error for them. A Buffer passed there is coerced through its text; for example, a Buffer holding "1024" reads as 1024.
- boolberry does not check that its scratchpad differs from its input.
- The exports object is a plain object. Calling a name it neither holds nor inherits is a JavaScript TypeError, modelled as `NotAFunction`. Names inherited from `Object.prototype`, such as `toString`, stay callable.
- yescrypt, bcrypt, lyra2re, lyra2re2 and c11 call their routine without the input length and check no length. c11 computes the length and then drops it.

## Left out

- Reads past the end of the input. yescrypt, bcrypt, lyra2re, lyra2re2 and c11 (multihashing.cc:198, 237, 699, 716, 777) give their routine no length, so a Buffer shorter than what the routine reads, such as an empty one, makes it read past the Buffer's end. The model assumes the digest depends only on the Buffer's bytes.
- Caller code that rewrites the input. In scrypt (multihashing.cc:119-127), scryptn (169-175) and neoscrypt (148-151) the number coercion runs before the input bytes are read, and a `valueOf` or `toString` of the caller's may change the Buffer in between. The model hashes the bytes the Buffer held when the call began.
- The hash algorithms themselves. They are foreign C code, so they are the fields of a `Library` parameter. Each returns a 32-byte digest.
- V8 object coercion. `Nan::To<Object>(...).ToLocalChecked()` and boolberry's `info[1]->ToObject()` abort on `undefined` or `null`, and boolberry runs the second one before it checks argument 1. The model treats every non-Buffer value as failing the Buffer check.
- Arguments.NumberValue: stands in for `Nan::To<Number>` followed by the conversion to `unsigned int` (multihashing.cc:119-122, 148-149, 169-170), and states no property of its own. `Nan::To<Number>` runs ToPrimitive and ToNumber; for a Buffer that means decoding its bytes as text. The conversion to `unsigned int` then truncates a double, and is undefined for NaN and out-of-range values. `ArgValue` carries the resulting reading as `asNumber` instead of computing it.
- Coercions that throw. ToNumber throws for a Symbol or a BigInt, and a `valueOf` or `toString` of the caller's may throw too. `ToLocalChecked()` then aborts the process. The model's `Other` values always coerce.
- Multihashing.Dispatch: requires nFactor below 32 for scryptn, because `1 << nFactor` is undefined behaviour in C++ for larger shifts.
- Memory ownership. The `malloc` of the output and its hand-over to the garbage collector through `Nan::NewBuffer` become the `outputBytes` count and the returned byte sequence.
- Module registration through `NODE_MODULE`. Only the set of exported names is modelled.
- Exception texts. `Multihashing.Message` gives the text each entry point throws, but no property is proved about it.
- Concurrency. The addon has none; every call is synchronous.
- What an inherited `Object.prototype` method does when called. `Exports.Invoke` only reports that such a method ran.
- The truncation that `NeoscryptLengthWraps` shows matters only for Buffers over 4 GiB, and `neoscrypt` never receives the length.
