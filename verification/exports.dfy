/**
  The module's exports object, as built by the addon's `init`, and calls
  made through it by name.
*/
module Exports {
  import opened Wrappers
  import opened Arguments
  import opened Natives
  import opened Registry
  import opened Multihashing

  /**
    The entry points `init` registers, in the order it registers them,
    written in runs of eight so that facts about positions stay small.
  */
  const InitOrder: seq<Name> := FirstRun + SecondRun + ThirdRun + FourthRun

  const FirstRun: seq<Name> := [Quark, X11, Scrypt, ScryptN, Keccak, Bcrypt, Skein, Groestl]
  const SecondRun: seq<Name> := [GroestlMyriad, Blake, Blake2s, Fugue, Qubit, Hefty1, Shavite3, Cryptonight]
  const ThirdRun: seq<Name> := [X13, Boolberry, Nist5, Sha1, X15, X17, Fresh, WhirlpoolX]
  const FourthRun: seq<Name> := [Zr5, Neoscrypt, Yescrypt, Lyra2RE, Lyra2RE2, S3, Jh]

  /** The entry points the addon defines but `init` never registers. */
  const Unexported: set<Name> := {X5, X14, Dcrypt, C11}

  /** No two entry points share a JavaScript name. */
  lemma JsNameInjective(a: Name, b: Name)
    ensures JsName(a) == JsName(b) ==> a == b
  {
    EntryNamedJsName(a);
    EntryNamedJsName(b);
  }

  /** The JavaScript names of `entries` are pairwise different. */
  predicate DistinctNames(entries: seq<Name>) {
    forall i, j :: 0 <= i < j < |entries| ==> JsName(entries[i]) != JsName(entries[j])
  }

  /**
    The exports object after `Nan::Set` has stored each of `entries` under
    its JavaScript name, one after the other.
  */
  function Install(entries: seq<Name>): (m: map<string, Name>)
    ensures forall n :: n in entries ==> JsName(n) in m
    ensures forall key :: key in m ==> JsName(m[key]) == key && m[key] in entries
    ensures DistinctNames(entries) ==> |m| == |entries|
  {
    if entries == [] then map[]
    else
      var prefix := entries[..|entries| - 1];
      var last := entries[|entries| - 1];
      assert forall n :: n in entries ==> n in prefix || n == last;
      Install(prefix)[JsName(last) := last]
  }

  /** The exports object `init` builds. */
  function ModuleExports(): map<string, Name> {
    Install(InitOrder)
  }

  /** `init` registers exactly the entry points outside `Unexported`. */
  lemma InitOrderCovers(n: Name)
    ensures n in InitOrder <==> n !in Unexported
  {
    if n in Unexported {
      UnexportedNotRegistered(n);
    } else {
      ExportedRegistered(n);
    }
  }

  lemma UnexportedNotRegistered(n: Name)
    requires n in Unexported
    ensures n !in InitOrder
  {
    assert n !in FirstRun && n !in SecondRun && n !in ThirdRun && n !in FourthRun;
  }

  lemma ExportedRegistered(n: Name)
    requires n !in Unexported
    ensures n in InitOrder
  {
    match n
    case Quark => assert InitOrder[0] == Quark;
    case X11 => assert InitOrder[1] == X11;
    case Scrypt => assert InitOrder[2] == Scrypt;
    case ScryptN => assert InitOrder[3] == ScryptN;
    case Keccak => assert InitOrder[4] == Keccak;
    case Bcrypt => assert InitOrder[5] == Bcrypt;
    case Skein => assert InitOrder[6] == Skein;
    case Groestl => assert InitOrder[7] == Groestl;
    case GroestlMyriad => assert InitOrder[8] == GroestlMyriad;
    case Blake => assert InitOrder[9] == Blake;
    case Blake2s => assert InitOrder[10] == Blake2s;
    case Fugue => assert InitOrder[11] == Fugue;
    case Qubit => assert InitOrder[12] == Qubit;
    case Hefty1 => assert InitOrder[13] == Hefty1;
    case Shavite3 => assert InitOrder[14] == Shavite3;
    case Cryptonight => assert InitOrder[15] == Cryptonight;
    case X13 => assert InitOrder[16] == X13;
    case Boolberry => assert InitOrder[17] == Boolberry;
    case Nist5 => assert InitOrder[18] == Nist5;
    case Sha1 => assert InitOrder[19] == Sha1;
    case X15 => assert InitOrder[20] == X15;
    case X17 => assert InitOrder[21] == X17;
    case Fresh => assert InitOrder[22] == Fresh;
    case WhirlpoolX => assert InitOrder[23] == WhirlpoolX;
    case Zr5 => assert InitOrder[24] == Zr5;
    case Neoscrypt => assert InitOrder[25] == Neoscrypt;
    case Yescrypt => assert InitOrder[26] == Yescrypt;
    case Lyra2RE => assert InitOrder[27] == Lyra2RE;
    case Lyra2RE2 => assert InitOrder[28] == Lyra2RE2;
    case S3 => assert InitOrder[29] == S3;
    case Jh => assert InitOrder[30] == Jh;
    case _ =>
  }

  /**
    The exported names are exactly the names of the entry points other than
    x5, x14, dcrypt and c11, each bound to its own entry point.
  */
  lemma ExportTable(n: Name)
    ensures JsName(n) in ModuleExports() <==> n !in Unexported
    ensures JsName(n) in ModuleExports() ==> ModuleExports()[JsName(n)] == n
  {
    var m := ModuleExports();
    InitOrderCovers(n);
    if JsName(n) in m {
      JsNameInjective(n, m[JsName(n)]);
    }
  }

  /** The exports object holds 31 functions. */
  lemma ExportCount()
    ensures |ModuleExports()| == 31
  {
    InitOrderDistinct();
  }

  /** The position at which `init` registers `n`; 31 for the entry points it skips. */
  function Rank(n: Name): nat {
    match n
    case Quark => 0
    case X11 => 1
    case Scrypt => 2
    case ScryptN => 3
    case Keccak => 4
    case Bcrypt => 5
    case Skein => 6
    case Groestl => 7
    case GroestlMyriad => 8
    case Blake => 9
    case Blake2s => 10
    case Fugue => 11
    case Qubit => 12
    case Hefty1 => 13
    case Shavite3 => 14
    case Cryptonight => 15
    case X13 => 16
    case Boolberry => 17
    case Nist5 => 18
    case Sha1 => 19
    case X15 => 20
    case X17 => 21
    case Fresh => 22
    case WhirlpoolX => 23
    case Zr5 => 24
    case Neoscrypt => 25
    case Yescrypt => 26
    case Lyra2RE => 27
    case Lyra2RE2 => 28
    case S3 => 29
    case Jh => 30
    case _ => 31
  }

  lemma RankOfInitOrder(i: nat)
    requires i < |InitOrder|
    ensures Rank(InitOrder[i]) == i
  {
    RunsRanked();
    if i < 8 {
      assert InitOrder[i] == FirstRun[i];
    } else if i < 16 {
      assert InitOrder[i] == SecondRun[i - 8];
    } else if i < 24 {
      assert InitOrder[i] == ThirdRun[i - 16];
    } else {
      assert InitOrder[i] == FourthRun[i - 24];
    }
  }

  /** The entries of `run` are registered at positions `offset`, `offset + 1`, and so on. */
  predicate RankedFrom(run: seq<Name>, offset: nat) {
    forall i | 0 <= i < |run| :: Rank(run[i]) == offset + i
  }

  lemma RunsRanked()
    ensures RankedFrom(FirstRun, 0) && RankedFrom(SecondRun, 8)
    ensures RankedFrom(ThirdRun, 16) && RankedFrom(FourthRun, 24)
  {
    FirstRunRanked();
    SecondRunRanked();
    ThirdRunRanked();
    FourthRunRanked();
  }

  lemma FirstRunRanked() ensures RankedFrom(FirstRun, 0) {
    forall i | 0 <= i < |FirstRun| ensures Rank(FirstRun[i]) == 0 + i {
      if i == 0 {} else if i == 1 {} else if i == 2 {} else if i == 3 {}
      else if i == 4 {} else if i == 5 {} else if i == 6 {} else {}
    }
  }
  lemma SecondRunRanked() ensures RankedFrom(SecondRun, 8) {
    forall i | 0 <= i < |SecondRun| ensures Rank(SecondRun[i]) == 8 + i {
      if i == 0 {} else if i == 1 {} else if i == 2 {} else if i == 3 {}
      else if i == 4 {} else if i == 5 {} else if i == 6 {} else {}
    }
  }
  lemma ThirdRunRanked() ensures RankedFrom(ThirdRun, 16) {
    forall i | 0 <= i < |ThirdRun| ensures Rank(ThirdRun[i]) == 16 + i {
      if i == 0 {} else if i == 1 {} else if i == 2 {} else if i == 3 {}
      else if i == 4 {} else if i == 5 {} else if i == 6 {} else {}
    }
  }
  lemma FourthRunRanked() ensures RankedFrom(FourthRun, 24) {
    forall i | 0 <= i < |FourthRun| ensures Rank(FourthRun[i]) == 24 + i {
      if i == 0 {} else if i == 1 {} else if i == 2 {} else if i == 3 {}
      else if i == 4 {} else if i == 5 {} else if i == 6 {} else {}
    }
  }

  lemma InitOrderDistinct()
    ensures DistinctNames(InitOrder)
  {
    forall i, j | 0 <= i < j < |InitOrder|
      ensures JsName(InitOrder[i]) != JsName(InitOrder[j])
    {
      RankOfInitOrder(i);
      RankOfInitOrder(j);
      JsNameInjective(InitOrder[i], InitOrder[j]);
    }
  }

  /** Undefined behaviour is reachable only through `scryptn`. */
  predicate DefinedInvocation(key: string, args: seq<ArgValue>) {
    key == "scryptn" ==> DefinedCall(ScryptN, args)
  }

  /** The entry point exported under `key` is called only where it is defined. */
  lemma CallDefinedThroughKey(n: Name, key: string, args: seq<ArgValue>)
    requires JsName(n) == key
    requires DefinedInvocation(key, args)
    ensures DefinedCall(n, args)
  {
    OnlyScryptNShifts(n);
  }

  /** No exported key is longer than 13 characters. */
  lemma ExportedKeysShort(key: string)
    ensures key in ModuleExports() ==> |key| <= 13
  {
    if key in ModuleExports() {
      JsNameShort(ModuleExports()[key]);
    }
  }

  /**
    The methods every plain JavaScript object inherits from
    `Object.prototype`. `__proto__` is inherited too, but it is an object,
    not a function, so calling it is a TypeError like any missing name.
  */
  const InheritedMethods: set<string> := {
    "constructor", "hasOwnProperty", "isPrototypeOf", "propertyIsEnumerable",
    "toLocaleString", "toString", "valueOf",
    "__defineGetter__", "__defineSetter__", "__lookupGetter__", "__lookupSetter__"
  }

  /** The inherited method names are all at least seven characters long. */
  lemma InheritedMethodsLong(key: string)
    ensures key in InheritedMethods ==> |key| >= 7
  {
  }

  /**
    What calling a property of the exports object does: run an entry point
    of the addon (or throw the TypeError of a missing function), or run a
    method inherited from `Object.prototype`, which is not the addon's code.
  */
  datatype Outcome = Ran(effects: Effects) | PrototypeMethod(name: string)

  /**
    Calling the property `key` of the exports object with `args`. An own
    property shadows an inherited one, so the exported entry points are
    looked up first, then the inherited methods; any other name is a
    TypeError.
  */
  function Invoke(lib: Library, key: string, args: seq<ArgValue>): (o: Outcome)
    requires DefinedInvocation(key, args)
    ensures o.PrototypeMethod? <==> key !in ModuleExports() && key in InheritedMethods
    ensures o == Ran(Effects(Failure(NotAFunction(key)), [], 0)) <==>
      key !in ModuleExports() && key !in InheritedMethods
    ensures o.Ran? && o.effects.result.Failure? && o.effects.result.error.NotAFunction? ==>
      key !in ModuleExports()
  {
    var m := ModuleExports();
    if key in m then
      var n := m[key];
      ExportTable(n);
      CallDefinedThroughKey(n, key, args);
      Ran(Call(lib, n, args))
    else if key in InheritedMethods then
      PrototypeMethod(key)
    else
      Ran(Effects(Failure(NotAFunction(key)), [], 0))
  }

  /**
    Calling an entry point through the name `init` exports it under is
    calling that entry point.
  */
  lemma InvokeByName(lib: Library, n: Name, args: seq<ArgValue>)
    requires n !in Unexported
    requires DefinedCall(n, args)
    ensures DefinedInvocation(JsName(n), args)
    ensures Invoke(lib, JsName(n), args) == Ran(Call(lib, n, args))
  {
    JsNameInjective(n, ScryptN);
    ExportTable(n);
  }

  /**
    Calling x5, x14, dcrypt or c11 through the exports object is a TypeError
    that runs no routine and allocates nothing: `init` never sets them and
    no object inherits them.
  */
  lemma InvokeUnexported(lib: Library, n: Name, args: seq<ArgValue>)
    requires n in Unexported
    ensures DefinedInvocation(JsName(n), args)
    ensures Invoke(lib, JsName(n), args) == Ran(Effects(Failure(NotAFunction(JsName(n))), [], 0))
  {
    ExportTable(n);
    UnexportedShort(n);
    InheritedMethodsLong(JsName(n));
    InvokeMissing(lib, JsName(n), args);
  }

  /** The four names `init` leaves out are short, and none is scryptn. */
  lemma UnexportedShort(n: Name)
    requires n in Unexported
    ensures |JsName(n)| < 7 && JsName(n) != "scryptn"
  {
  }

  /** A name neither set by `init` nor inherited is a TypeError. */
  lemma InvokeMissing(lib: Library, key: string, args: seq<ArgValue>)
    requires DefinedInvocation(key, args)
    requires key !in ModuleExports() && key !in InheritedMethods
    ensures Invoke(lib, key, args) == Ran(Effects(Failure(NotAFunction(key)), [], 0))
  {
  }

  /** No inherited method name is the JavaScript name of an entry point. */
  lemma InheritedUnnamed(key: string)
    requires key in InheritedMethods
    ensures EntryNamed(key) == None
  {
    if key in {"__defineGetter__", "__defineSetter__", "__lookupGetter__", "__lookupSetter__"} {
      AccessorNamesUnnamed(key);
    } else {
      PlainNamesUnnamed(key);
    }
  }

  lemma PlainNamesUnnamed(key: string)
    requires key in {"constructor", "hasOwnProperty", "isPrototypeOf", "propertyIsEnumerable",
                     "toLocaleString", "toString", "valueOf"}
    ensures EntryNamed(key) == None
  {
  }

  lemma AccessorNamesUnnamed(key: string)
    requires key in {"__defineGetter__", "__defineSetter__", "__lookupGetter__", "__lookupSetter__"}
    ensures EntryNamed(key) == None
  {
  }

  /** Every exported key names the entry point stored under it. */
  lemma ExportedKeyNamed(key: string)
    ensures key in ModuleExports() ==> EntryNamed(key) == Some(ModuleExports()[key])
  {
    if key in ModuleExports() {
      ExportTable(ModuleExports()[key]);
      EntryNamedJsName(ModuleExports()[key]);
    }
  }

  /**
    No inherited method is shadowed by an export, so calling any of them,
    `toString` and `valueOf` included, runs the inherited method rather
    than failing.
  */
  lemma InheritedMethodRuns(lib: Library, key: string, args: seq<ArgValue>)
    requires key in InheritedMethods
    ensures DefinedInvocation(key, args)
    ensures Invoke(lib, key, args) == PrototypeMethod(key)
  {
    InheritedUnnamed(key);
    ExportedKeyNamed(key);
  }
}
