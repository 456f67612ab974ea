/**
 * The entry point (src/index.tsx): the command-line options parsed before
 * `main` runs, the choice `main` makes between the multi-client test and
 * the interactive session, the preparation of the main realm, and the menu
 * loop that dispatches the workloads.
 */
module Cli {
  import opened Wrappers
  import opened Schemas
  import opened RealmStore
  import opened Utilities
  import opened Steps

  const Separator: char := '='
  const MultipleClientFlag: string := "multipleClientTest"
  const ClientAppIdKey: string := "clientAppId"
  const DatabaseNameKey: string := "databaseName"

  /** `String.prototype.split` with a one-character separator: always at least one part. */
  function Split(s: string, sep: char): (parts: seq<string>)
    ensures |parts| >= 1
  {
    if s == [] then [""]
    else
      var p := Split(s[..|s| - 1], sep);
      var c := s[|s| - 1];
      if c == sep then p + [""] else p[..|p| - 1] + [p[|p| - 1] + [c]]
  }

  /** The parts put back together with the separator between them. */
  function Join(parts: seq<string>, sep: char): string
    requires |parts| >= 1
  {
    if |parts| == 1 then parts[0] else Join(parts[..|parts| - 1], sep) + [sep] + parts[|parts| - 1]
  }

  lemma JoinExtendsLast(parts: seq<string>, sep: char, c: char)
    requires |parts| >= 1
    ensures Join(parts[..|parts| - 1] + [parts[|parts| - 1] + [c]], sep) == Join(parts, sep) + [c]
  {
    var init := parts[..|parts| - 1];
    var q := init + [parts[|parts| - 1] + [c]];
    assert q[..|q| - 1] == init;
  }

  /** Splitting loses nothing: joining the parts gives the string back. */
  lemma {:induction false} SplitJoin(s: string, sep: char)
    ensures Join(Split(s, sep), sep) == s
  {
    if s != [] {
      var init, c := s[..|s| - 1], s[|s| - 1];
      var p := Split(init, sep);
      SplitJoin(init, sep);
      if c == sep {
        assert (p + [""])[..|p|] == p;
      } else {
        JoinExtendsLast(p, sep, c);
      }
      assert init + [c] == s;
    }
  }

  /** The last step of a split: a separator opens a new part, anything else extends the last one. */
  lemma SplitLast(s: string, sep: char)
    requires s != []
    ensures var p, c := Split(s[..|s| - 1], sep), s[|s| - 1];
            Split(s, sep) == if c == sep then p + [""] else p[..|p| - 1] + [p[|p| - 1] + [c]]
  {
  }

  /** No part holds the separator. */
  lemma {:induction false} SplitPartsLackSeparator(s: string, sep: char)
    ensures forall i :: 0 <= i < |Split(s, sep)| ==> sep !in Split(s, sep)[i]
  {
    if s != [] {
      var init, c := s[..|s| - 1], s[|s| - 1];
      var p := Split(init, sep);
      SplitPartsLackSeparator(init, sep);
      SplitLast(s, sep);
      var q := Split(s, sep);
      forall i | 0 <= i < |q|
        ensures sep !in q[i]
      {
        if c == sep {
          assert i < |p| ==> q[i] == p[i];
        } else if i < |p| - 1 {
          assert q[i] == p[i];
        } else {
          assert q[i] == p[|p| - 1] + [c];
        }
      }
    }
  }

  /** There is one part more than there are separators. */
  lemma {:induction false} SplitPartCount(s: string, sep: char)
    ensures |Split(s, sep)| == multiset(s)[sep] + 1
  {
    if s != [] {
      var init, c := s[..|s| - 1], s[|s| - 1];
      SplitPartCount(init, sep);
      SplitLast(s, sep);
      assert s == init + [c];
      assert multiset(s) == multiset(init) + multiset{c};
    }
  }

  /** A string without the separator splits into itself alone. */
  lemma SplitWithoutSeparator(s: string, sep: char)
    requires sep !in s
    ensures Split(s, sep) == [s]
  {
    SplitPartCount(s, sep);
    SplitJoin(s, sep);
  }

  /** `process.argv.splice(2, process.argv.length - 1)`: everything after the program and the script. */
  function TestArgs(argv: seq<string>): (args: seq<string>)
    ensures |argv| >= 2 ==> args == argv[2..]
    ensures |argv| < 2 ==> args == []
  {
    if |argv| < 2 then [] else argv[2..]
  }

  /** The option variables of the module, as the parse leaves them. */
  datatype Options = Options(clientAppId: string, databaseName: string, multipleClientTest: bool)

  /** The two strings the parse throws. */
  datatype ArgError =
    | MalformedOption(arg: string)   // "Expected to find option with a key and value"
    | UnknownOption(arg: string)     // "Found unknown option"

  /**
   * Lines 116-133 for one argument: it is accepted exactly when it is
   * key=value or the bare flag with a known key, and otherwise throws the
   * error for its case.
   */
  function ApplyArg(o: Options, arg: string): (r: Result<Options, ArgError>)
    ensures r.Success? <==> Accepted(arg)
    ensures r.Failure? ==> r.error == ErrorOf(arg)
  {
    var parts := Split(arg, Separator);
    if |parts| != 2 && arg != MultipleClientFlag then Failure(MalformedOption(arg))
    else
      SplitJoin(arg, Separator);
      if parts[0] == ClientAppIdKey then Success(o.(clientAppId := parts[1]))
      else if parts[0] == DatabaseNameKey then Success(o.(databaseName := parts[1]))
      else if parts[0] == MultipleClientFlag then Success(o.(multipleClientTest := true))
      else Failure(UnknownOption(arg))
  }

  /** The loop of lines 115-134 over the arguments in order, stopping at the first throw. */
  function ApplyArgs(o: Options, args: seq<string>): Result<Options, ArgError> {
    if args == [] then Success(o)
    else
      match ApplyArgs(o, args[..|args| - 1])
      case Failure(e) => Failure(e)
      case Success(o') => ApplyArg(o', args[|args| - 1])
  }

  /** The options as lines 21-23 initialise them and line 114 presets the flag. */
  function InitialOptions(args: seq<string>): Options {
    Options("", "", MultipleClientFlag in args)
  }

  /** Lines 113-134, on the process's arguments. */
  function ParseArgs(argv: seq<string>): Result<Options, ArgError> {
    var args := TestArgs(argv);
    ApplyArgs(InitialOptions(args), args)
  }

  /** The parse as the module runs it: the `for` loop over the arguments. */
  method ParseTestArgs(argv: seq<string>) returns (r: Result<Options, ArgError>)
    ensures r == ParseArgs(argv)
  {
    var testArgs := TestArgs(argv);
    var options := InitialOptions(testArgs);
    var i := 0;
    while i < |testArgs|
      invariant 0 <= i <= |testArgs|
      invariant ApplyArgs(InitialOptions(testArgs), testArgs[..i]) == Success(options)
    {
      assert testArgs[..i + 1][..i] == testArgs[..i];
      var next := ApplyArg(options, testArgs[i]);
      if next.Failure? {
        ApplyArgsStopsAtFailure(InitialOptions(testArgs), testArgs, i + 1);
        return next;
      }
      options := next.value;
      i := i + 1;
    }
    assert testArgs[..i] == testArgs;
    r := Success(options);
  }

  /** More arguments after a throw change nothing: the first error is the one reported. */
  lemma {:induction false} ApplyArgsStopsAtFailure(o: Options, args: seq<string>, n: nat)
    requires n <= |args|
    requires ApplyArgs(o, args[..n]).Failure?
    ensures ApplyArgs(o, args) == ApplyArgs(o, args[..n])
    decreases |args| - n
  {
    if n < |args| {
      assert args[..n + 1][..n] == args[..n];
      ApplyArgsStopsAtFailure(o, args, n + 1);
    } else {
      assert args[..n] == args;
    }
  }

  /** The key of an argument: what precedes its first separator. */
  function Key(arg: string): string {
    Split(arg, Separator)[0]
  }

  /** An argument the loop accepts: key and value, or the bare flag, with a known key. */
  predicate Accepted(arg: string) {
    && (|Split(arg, Separator)| == 2 || arg == MultipleClientFlag)
    && Key(arg) in {ClientAppIdKey, DatabaseNameKey, MultipleClientFlag}
  }

  /** The error one argument throws, when it is not accepted. */
  function ErrorOf(arg: string): ArgError {
    if |Split(arg, Separator)| != 2 && arg != MultipleClientFlag then MalformedOption(arg) else UnknownOption(arg)
  }

  /**
   * The parse fails exactly when some argument is not accepted, and then
   * with the error of the first such argument.
   */
  lemma {:induction false} ApplyArgsFails(o: Options, args: seq<string>)
    ensures ApplyArgs(o, args).Success? <==> forall i :: 0 <= i < |args| ==> Accepted(args[i])
    ensures ApplyArgs(o, args).Failure? ==>
              exists i :: 0 <= i < |args| && !Accepted(args[i]) &&
                          (forall j :: 0 <= j < i ==> Accepted(args[j])) &&
                          ApplyArgs(o, args).error == ErrorOf(args[i])
  {
    if args != [] {
      var init, last := args[..|args| - 1], args[|args| - 1];
      ApplyArgsFails(o, init);
      assert forall i :: 0 <= i < |init| ==> init[i] == args[i];
      match ApplyArgs(o, init)
      case Failure(_) =>
      case Success(o') =>
    }
  }

  /** The value of the last argument with the given key, or `default` when there is none. */
  function LastValue(args: seq<string>, key: string, default: string): string {
    if args == [] then default
    else
      var last := args[|args| - 1];
      var parts := Split(last, Separator);
      if |parts| == 2 && parts[0] == key then parts[1] else LastValue(args[..|args| - 1], key, default)
  }

  /** One accepted argument sets the option its key names and nothing else. */
  lemma ApplyArgValues(o: Options, arg: string)
    requires ApplyArg(o, arg).Success?
    ensures var parts, o' := Split(arg, Separator), ApplyArg(o, arg).value;
            && o'.clientAppId == (if |parts| == 2 && parts[0] == ClientAppIdKey then parts[1] else o.clientAppId)
            && o'.databaseName == (if |parts| == 2 && parts[0] == DatabaseNameKey then parts[1] else o.databaseName)
            && (o'.multipleClientTest <==> o.multipleClientTest || Key(arg) == MultipleClientFlag)
  {
    if |Split(arg, Separator)| != 2 {
      FlagKey();
    }
  }

  /**
   * On a successful parse the last occurrence of an option wins, the flag
   * is set exactly when some argument has the flag as its key, and
   * absent options keep the value they started with.
   */
  lemma {:induction false} ApplyArgsValues(o: Options, args: seq<string>)
    requires ApplyArgs(o, args).Success?
    ensures ApplyArgs(o, args).value.clientAppId == LastValue(args, ClientAppIdKey, o.clientAppId)
    ensures ApplyArgs(o, args).value.databaseName == LastValue(args, DatabaseNameKey, o.databaseName)
    ensures ApplyArgs(o, args).value.multipleClientTest <==>
            (o.multipleClientTest || exists i :: 0 <= i < |args| && Key(args[i]) == MultipleClientFlag)
  {
    if args != [] {
      var init, last := args[..|args| - 1], args[|args| - 1];
      assert ApplyArgs(o, init).Success?;
      ApplyArgsValues(o, init);
      ApplyArgValues(ApplyArgs(o, init).value, last);
      assert forall i :: 0 <= i < |init| ==> init[i] == args[i];
      if Key(last) == MultipleClientFlag {
        assert Key(args[|args| - 1]) == MultipleClientFlag;
      }
    }
  }

  /** The bare flag is its own key. */
  lemma FlagKey()
    ensures Key(MultipleClientFlag) == MultipleClientFlag
    ensures |Split(MultipleClientFlag, Separator)| == 1
  {
    SplitWithoutSeparator(MultipleClientFlag, Separator);
  }

  /**
   * The parse of the process's arguments: it succeeds exactly when every
   * argument is accepted; then each option holds its last value (empty when
   * never given) and the multi-client flag is set exactly when some argument
   * has the flag as its key, bare or with a value.
   */
  lemma ParseArgsMeaning(argv: seq<string>)
    ensures ParseArgs(argv).Success? <==> forall i :: 0 <= i < |TestArgs(argv)| ==> Accepted(TestArgs(argv)[i])
    ensures ParseArgs(argv).Success? ==>
              var args, o := TestArgs(argv), ParseArgs(argv).value;
              && o.clientAppId == LastValue(args, ClientAppIdKey, "")
              && o.databaseName == LastValue(args, DatabaseNameKey, "")
              && (o.multipleClientTest <==> exists i :: 0 <= i < |args| && Key(args[i]) == MultipleClientFlag)
  {
    var args := TestArgs(argv);
    ApplyArgsFails(InitialOptions(args), args);
    if ParseArgs(argv).Success? {
      ApplyArgsValues(InitialOptions(args), args);
      if MultipleClientFlag in args {
        var i :| 0 <= i < |args| && args[i] == MultipleClientFlag;
        FlagKey();
        assert Key(args[i]) == MultipleClientFlag;
      }
    }
  }

  /** What `main` runs once the options are known. */
  datatype Plan =
    | UploadAndAcknowledge                             // the multi-client test of lines 39-42
    | Interactive(clientAppId: string, databaseName: string)

  /**
   * Lines 38-55: the multi-client test when the flag is set; otherwise the
   * interactive session, asking for the app id and the database name only
   * when the options left them empty.
   */
  function StartUp(o: Options, appIdAnswer: string, databaseAnswer: string): (p: Plan)
    ensures p.UploadAndAcknowledge? <==> o.multipleClientTest
    ensures p.Interactive? ==>
              && (o.clientAppId != "" ==> p.clientAppId == o.clientAppId)
              && (o.clientAppId == "" ==> p.clientAppId == appIdAnswer)
              && (o.databaseName != "" ==> p.databaseName == o.databaseName)
              && (o.databaseName == "" ==> p.databaseName == databaseAnswer)
  {
    if o.multipleClientTest then UploadAndAcknowledge
    else
      var appId := if o.clientAppId == "" then appIdAnswer else o.clientAppId;
      var database := if o.databaseName == "" then databaseAnswer else o.databaseName;
      Interactive(appId, database)
  }

  /**
   * Lines 63-64: subscribe the main realm to the Dog query, then drop every
   * subscription, leaving it unsubscribed and otherwise unchanged.
   */
  method PrepareMainRealm(realm: Realm, log: Log)
    modifies realm, log
    ensures realm.State() == old(realm.State()).(subscriptions := {})
    ensures log.steps == old(log.steps) + [Subscribe(realm.role, DogSubscription), UnsubscribeAll(realm.role)]
  {
    AddSubscriptionAndWait(realm, DogTable, BasicDogAgeQuery, log);
    RemoveAllSubscriptionsAndWait(realm, log);
  }

  /** One answer of the menu of lines 83-103. */
  datatype Command =
    | RunRealmToRealm
    | RunMongoToRealm
    | RunRealmToMongo
    | RunBootstrap
    | Quit
    | Invalid(input: string)

  /** The answer's command: only "5" leaves the menu, and only the five listed answers are valid. */
  function Dispatch(input: string): (c: Command)
    ensures c == Quit <==> input == "5"
    ensures c.Invalid? <==> input !in {"1", "2", "3", "4", "5"}
    ensures c.Invalid? ==> c.input == input
  {
    if input == "1" then RunRealmToRealm
    else if input == "2" then RunMongoToRealm
    else if input == "3" then RunRealmToMongo
    else if input == "4" then RunBootstrap
    else if input == "5" then Quit
    else Invalid(input)
  }

  /**
   * The menu loop of lines 73-108 over the answers typed. It handles the
   * answers in order up to and including the first "5"; without one it
   * handles them all and then waits for more input.
   */
  method Menu(answers: seq<string>) returns (commands: seq<Command>, exited: bool)
    ensures |commands| <= |answers|
    ensures forall i :: 0 <= i < |commands| ==> commands[i] == Dispatch(answers[i])
    ensures exited <==> "5" in answers
    ensures exited ==> commands != [] && commands[|commands| - 1] == Quit
    ensures forall i :: 0 <= i < |commands| - 1 ==> commands[i] != Quit
    ensures !exited ==> |commands| == |answers|
  {
    commands, exited := [], false;
    var i := 0;
    while i < |answers|
      invariant 0 <= i <= |answers|
      invariant |commands| == i
      invariant forall j :: 0 <= j < i ==> commands[j] == Dispatch(answers[j])
      invariant forall j :: 0 <= j < i ==> answers[j] != "5"
    {
      var command := Dispatch(answers[i]);
      commands := commands + [command];
      if command == Quit {
        exited := true;
        return;
      }
      i := i + 1;
    }
  }
}
