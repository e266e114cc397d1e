/**
 Scanners over command lines that decide how a command is shown: the files `sed` reads, the
 wrappers in front of a program, and the subcommand of `git`.
 */
module CommandArgs {
  import opened Wrappers
  import opened Text

  // ---------------------------------------------------------------------------------------------
  // sed

  /** How the scanner reads an argument that is not the value of the option before it. */
  datatype Role = EndOfOptions | ScriptOption | InPlaceOption | Flag | InlineScript | Plain

  /** Length of a string in UTF-8, which is what the program measures. */
  function ByteLength(s: string): nat {
    if s == "" then 0
    else
      var c := s[0] as int;
      (if c < 0x80 then 1 else if c < 0x800 then 2 else if c < 0x1_0000 then 3 else 4) + ByteLength(s[1..])
  }

  function OptionsInPlace(options: string): bool {
    if options == "" || options[0] in {'e', 'f'} then false
    else options[0] == 'i' || OptionsInPlace(options[1..])
  }

  predicate ShortOptionHasInPlace(arg: string) {
    "-" <= arg && !("--" <= arg) && OptionsInPlace(arg[1..])
  }

  function RoleOf(arg: string): Role {
    if arg == "--" then EndOfOptions
    else if arg in {"-e", "--expression", "-f", "--file"} then ScriptOption
    else if arg in {"-i", "--in-place"} then InPlaceOption
    else if arg in {"-n", "--quiet", "--silent", "-E", "-r", "-u", "--unbuffered", "-s", "--separate", "--posix",
                    "-z", "--null-data"} then Flag
    else if "--expression=" <= arg || "--file=" <= arg then InlineScript
    else if "--in-place=" <= arg then InPlaceOption
    else if "--" <= arg then Flag
    else if "-" <= arg && ByteLength(arg) > 2 then
      if ShortOptionHasInPlace(arg) then InPlaceOption
      else if 'e' in arg || 'f' in arg then InlineScript else Flag
    else Plain
  }

  /** What the scanner finds from a position on; none when an in-place option is met. */
  function Scan(args: seq<string>, index: nat, sawScript: bool): Option<seq<string>>
    decreases if index <= |args| then |args| - index else 0
  {
    if index >= |args| then Some([])
    else
      match RoleOf(args[index])
      case EndOfOptions => Some(args[index + 1..])
      case ScriptOption => Scan(args, index + 2, true)
      case InPlaceOption => None
      case Flag => Scan(args, index + 1, sawScript)
      case InlineScript => Scan(args, index + 1, true)
      case Plain =>
        if !sawScript then Scan(args, index + 1, true)
        else
          match Scan(args, index + 1, true)
          case None => None
          case Some(rest) => Some([args[index]] + rest)
  }

  function InputFileCandidates(args: seq<string>): seq<string> {
    var r := Scan(args, 0, false);
    if r.Some? then r.value else []
  }

  function Prepended(before: seq<string>, r: Option<seq<string>>): Option<seq<string>> {
    if r.Some? then Some(before + r.value) else None
  }

  /** The loop, whose index may jump past the end. */
  method SedInputFileCandidates(args: seq<string>) returns (candidates: seq<string>)
    ensures candidates == InputFileCandidates(args)
  {
    candidates := [];
    var sawScript, index := false, 0;
    PrependNothing(Scan(args, 0, false));
    while index < |args|
      invariant Prepended(candidates, Scan(args, index, sawScript)) == Scan(args, 0, false)
      decreases |args| - index
    {
      var arg := args[index];
      match RoleOf(arg)
      case EndOfOptions =>
        candidates := candidates + args[index + 1..];
        return;
      case ScriptOption =>
        sawScript, index := true, index + 2;
      case InPlaceOption =>
        return [];
      case Flag =>
        index := index + 1;
      case InlineScript =>
        sawScript, index := true, index + 1;
      case Plain =>
        if sawScript {
          PrependOne(candidates, arg, Scan(args, index + 1, true));
          candidates := candidates + [arg];
        } else {
          sawScript := true;
        }
        index := index + 1;
    }
  }

  lemma PrependNothing(r: Option<seq<string>>)
    ensures Prepended([], r) == r
  {
    if r.Some? {
      assert [] + r.value == r.value;
    }
  }

  lemma PrependOne(before: seq<string>, arg: string, r: Option<seq<string>>)
    ensures Prepended(before, Prepended([arg], r)) == Prepended(before + [arg], r)
  {
    if r.Some? {
      AppendAssoc(before, [arg], r.value);
    }
  }

  // What the scanner selects, position by position

  /** An argument that an option before it takes as its value. */
  ghost predicate IsScript(args: seq<string>, i: nat)
    requires i <= |args|
  {
    i > 0 && RoleOf(args[i - 1]).ScriptOption? && !IsScript(args, i - 1)
  }

  /** An argument read for its own sake, with no end of options before it. */
  ghost predicate IsRead(args: seq<string>, i: nat)
    requires i <= |args|
  {
    !IsScript(args, i) && BeforeEnd(args, i)
  }

  ghost predicate BeforeEnd(args: seq<string>, i: nat)
    requires i <= |args|
  {
    forall j: nat :: j < i ==> IsScript(args, j) || !RoleOf(args[j]).EndOfOptions?
  }

  /** The script is known before a position: an option gave it, or a plain argument was it. */
  ghost predicate ScriptKnown(args: seq<string>, i: nat)
    requires i <= |args|
  {
    exists j: nat :: j < i && !IsScript(args, j)
                     && (RoleOf(args[j]).ScriptOption? || RoleOf(args[j]).InlineScript? || RoleOf(args[j]).Plain?)
  }

  /** Input files: what follows the end of options, and plain arguments once the script is known. */
  ghost predicate IsInput(args: seq<string>, i: nat)
    requires i < |args|
  {
    !BeforeEnd(args, i) || (IsRead(args, i) && RoleOf(args[i]).Plain? && ScriptKnown(args, i))
  }

  ghost function Inputs(args: seq<string>, from: nat): seq<string>
    decreases if from <= |args| then |args| - from else 0
  {
    if from >= |args| then []
    else (if IsInput(args, from) then [args[from]] else []) + Inputs(args, from + 1)
  }

  ghost predicate EditsInPlace(args: seq<string>, from: nat) {
    exists i: nat :: from <= i < |args| && IsRead(args, i) && RoleOf(args[i]).InPlaceOption?
  }

  lemma EditsHereOrLater(args: seq<string>, from: nat)
    requires from < |args|
    ensures EditsInPlace(args, from)
       <==> (IsRead(args, from) && RoleOf(args[from]).InPlaceOption?) || EditsInPlace(args, from + 1)
  {}

  lemma {:induction false} AllInputsAfterEnd(args: seq<string>, end: nat, from: nat)
    requires end < from <= |args| && IsRead(args, end) && RoleOf(args[end]).EndOfOptions?
    ensures Inputs(args, from) == args[from..]
    ensures !EditsInPlace(args, from)
    decreases |args| - from
  {
    if from < |args| {
      AllInputsAfterEnd(args, end, from + 1);
      assert !BeforeEnd(args, from);
    }
  }

  lemma NextIsRead(args: seq<string>, index: nat)
    requires index < |args| && IsRead(args, index)
    requires !RoleOf(args[index]).EndOfOptions? && !RoleOf(args[index]).ScriptOption?
    ensures IsRead(args, index + 1)
    ensures ScriptKnown(args, index + 1)
       <==> ScriptKnown(args, index) || RoleOf(args[index]).InlineScript? || RoleOf(args[index]).Plain?
  {}

  lemma AfterValueIsRead(args: seq<string>, index: nat)
    requires index < |args| && IsRead(args, index) && RoleOf(args[index]).ScriptOption?
    ensures index + 2 <= |args| ==> IsRead(args, index + 2) && ScriptKnown(args, index + 2)
    ensures index + 1 < |args| ==> IsScript(args, index + 1) && !IsInput(args, index + 1)
  {
    assert !IsScript(args, index);
  }

  ghost function Found(args: seq<string>, from: nat): Option<seq<string>> {
    if EditsInPlace(args, from) then None else Some(Inputs(args, from))
  }

  /** An argument that is neither an in-place option nor an input adds nothing. */
  lemma NothingHere(args: seq<string>, from: nat)
    requires from < |args| && !IsInput(args, from)
    requires IsRead(args, from) ==> !RoleOf(args[from]).InPlaceOption?
    ensures Found(args, from) == Found(args, from + 1)
  {
    EditsHereOrLater(args, from);
    assert Inputs(args, from) == Inputs(args, from + 1);
  }

  lemma InputHere(args: seq<string>, from: nat)
    requires from < |args| && IsInput(args, from) && RoleOf(args[from]).Plain?
    ensures Found(args, from) == Prepended([args[from]], Found(args, from + 1))
  {
    EditsHereOrLater(args, from);
  }

  lemma EndHere(args: seq<string>, from: nat)
    requires from < |args| && IsRead(args, from) && RoleOf(args[from]).EndOfOptions?
    ensures Found(args, from) == Some(args[from + 1..])
  {
    AllInputsAfterEnd(args, from, from + 1);
    NothingHere(args, from);
  }

  lemma {:induction false} ScanFindsInputs(args: seq<string>, index: nat)
    requires index <= |args| && IsRead(args, index)
    ensures Scan(args, index, ScriptKnown(args, index)) == Found(args, index)
    decreases |args| - index
  {
    if index < |args| {
      match RoleOf(args[index])
      case EndOfOptions => EndHere(args, index);
      case ScriptOption =>
        AfterValueIsRead(args, index);
        NothingHere(args, index);
        if index + 2 <= |args| {
          NothingHere(args, index + 1);
          ScanFindsInputs(args, index + 2);
        }
      case InPlaceOption => EditsHereOrLater(args, index);
      case _ =>
        NextIsRead(args, index);
        ScanFindsInputs(args, index + 1);
        if IsInput(args, index) {
          InputHere(args, index);
        } else {
          NothingHere(args, index);
        }
    }
  }

  /**
   The files `sed` reads: none when an in-place option is read as an option before the end of
   options; else exactly the input arguments, in the order they stand.
   */
  lemma CandidatesAreInputs(args: seq<string>)
    ensures InputFileCandidates(args) == if EditsInPlace(args, 0) then [] else Inputs(args, 0)
  {
    ScanFindsInputs(args, 0);
  }

  ghost predicate IsSubsequence(r: seq<string>, s: seq<string>) {
    r == [] || (s != [] && ((r[0] == s[0] && IsSubsequence(r[1..], s[1..])) || IsSubsequence(r, s[1..])))
  }

  lemma {:induction false} InputsAreSubsequence(args: seq<string>, from: nat)
    requires from <= |args|
    ensures IsSubsequence(Inputs(args, from), args[from..])
    decreases |args| - from
  {
    if from < |args| {
      InputsAreSubsequence(args, from + 1);
      assert args[from..][1..] == args[from + 1..];
      if IsInput(args, from) {
        assert Inputs(args, from)[1..] == Inputs(args, from + 1);
      } else {
        assert Inputs(args, from) == Inputs(args, from + 1);
      }
    }
  }

  /** Candidates keep their order. */
  lemma CandidatesAreSubsequence(args: seq<string>)
    ensures IsSubsequence(InputFileCandidates(args), args)
  {
    CandidatesAreInputs(args);
    InputsAreSubsequence(args, 0);
    assert args[0..] == args;
  }

  // ---------------------------------------------------------------------------------------------
  // The roles, read backwards

  /** Several short options in one argument; a single one that is not ASCII counts as several. */
  predicate IsGroup(arg: string) {
    "-" <= arg && !("--" <= arg) && (|arg| > 2 || (|arg| == 2 && arg[1] as int >= 0x80))
  }

  lemma {:induction false} AtLeastOneByteEach(s: string)
    ensures ByteLength(s) >= |s|
  {
    if s != "" {
      AtLeastOneByteEach(s[1..]);
    }
  }

  lemma GroupsAreLong(arg: string)
    requires "-" <= arg && !("--" <= arg)
    ensures ByteLength(arg) > 2 <==> IsGroup(arg)
  {
    assert arg[0] == '-';
    var rest := arg[1..];
    if rest != "" {
      AtLeastOneByteEach(rest[1..]);
      assert ByteLength(arg) == 1 + ByteLength(rest);
      assert |rest| == 1 ==> rest[1..] == "";
    }
  }

  /** An `i` stands in the group before any `e` or `f`. */
  ghost predicate GroupEditsInPlace(arg: string) {
    exists k: nat :: 1 <= k < |arg| && arg[k] == 'i' && forall j: nat :: 1 <= j < k ==> arg[j] !in {'e', 'f'}
  }

  lemma GroupInPlaceExactly(arg: string)
    requires "-" <= arg && !("--" <= arg)
    ensures ShortOptionHasInPlace(arg) <==> GroupEditsInPlace(arg)
  {
    var options := arg[1..];
    InPlaceComesFirst(options);
    if k: nat :| k < |options| && options[k] == 'i' && forall j: nat :: j < k ==> options[j] !in {'e', 'f'} {
      assert arg[k + 1] == 'i';
      forall j: nat | 1 <= j < k + 1 ensures arg[j] !in {'e', 'f'} {
        assert arg[j] == options[j - 1];
      }
    }
    if k: nat :| 1 <= k < |arg| && arg[k] == 'i' && forall j: nat :: 1 <= j < k ==> arg[j] !in {'e', 'f'} {
      assert options[k - 1] == 'i';
      forall j: nat | j < k - 1 ensures options[j] !in {'e', 'f'} {
        assert options[j] == arg[j + 1];
      }
    }
  }

  /** The single letters that are options of their own. */
  predicate IsShortOption(arg: string) {
    |arg| == 2 && arg[0] == '-' && arg[1] in {'-', 'e', 'f', 'i', 'n', 'E', 'r', 'u', 's', 'z'}
  }

  /** Words that start with one dash are short options, groups, or no options at all. */
  lemma OneDash(arg: string)
    requires "-" <= arg && !("--" <= arg)
    ensures RoleOf(arg)
         == if arg == "-e" || arg == "-f" then ScriptOption
            else if arg == "-i" then InPlaceOption
            else if IsShortOption(arg) then Flag
            else if !IsGroup(arg) then Plain
            else if GroupEditsInPlace(arg) then InPlaceOption
            else if 'e' in arg || 'f' in arg then InlineScript
            else Flag
  {
    GroupsAreLong(arg);
    GroupInPlaceExactly(arg);
    assert arg[0] == '-';
    OneDashOnly(arg);
    assert |arg| == 2 ==> arg == ['-', arg[1]];
    assert "-e" == ['-', 'e'] && "-f" == ['-', 'f'] && "-i" == ['-', 'i'] && "-n" == ['-', 'n'] && "-E" == ['-', 'E'];
    assert "-r" == ['-', 'r'] && "-u" == ['-', 'u'] && "-s" == ['-', 's'] && "-z" == ['-', 'z'];
  }

  lemma OneDashOnly(arg: string)
    requires !("--" <= arg)
    ensures arg !in {"--expression", "--file", "--in-place", "--quiet", "--silent", "--unbuffered", "--separate",
                     "--posix", "--null-data"}
    ensures !("--expression=" <= arg) && !("--file=" <= arg) && !("--in-place=" <= arg)
  {
  }

  /** Words that start with two dashes: the end of options, scripts, editing in place, and other options. */
  lemma TwoDashes(arg: string)
    requires "--" <= arg
    ensures RoleOf(arg)
         == if arg == "--" then EndOfOptions
            else if arg == "--expression" || arg == "--file" then ScriptOption
            else if "--expression=" <= arg || "--file=" <= arg then InlineScript
            else if arg == "--in-place" || "--in-place=" <= arg then InPlaceOption
            else Flag
  {
    assert arg[1] == '-';
    assert "--expression="[2] == 'e' && "--file="[2] == 'f' && "--in-place="[2] == 'i';
    assert "--expression="[12] == '=' && "--file="[6] == '=' && "--in-place="[10] == '=';
    if arg in {"--quiet", "--silent", "--unbuffered", "--separate", "--posix", "--null-data"} {
      assert arg[2] in {'q', 's', 'u', 'p', 'n'};
    }
  }

  /** Words without a dash in front are what `sed` reads: the script first, then its input files. */
  lemma NoDash(arg: string)
    requires !("-" <= arg)
    ensures RoleOf(arg) == Plain
  {
  }

  /** A group of short options edits in place when its `i` comes before any option that takes a script. */
  lemma {:induction false} InPlaceComesFirst(options: string)
    ensures OptionsInPlace(options) <==>
              exists k: nat :: k < |options| && options[k] == 'i' && forall j: nat :: j < k ==> options[j] !in {'e', 'f'}
  {
    if options != "" {
      var rest := options[1..];
      InPlaceComesFirst(rest);
      if OptionsInPlace(options) {
        if options[0] != 'i' {
          var k: nat :| k < |rest| && rest[k] == 'i' && forall j: nat :: j < k ==> rest[j] !in {'e', 'f'};
          assert options[k + 1] == 'i';
          forall j: nat | j < k + 1 ensures options[j] !in {'e', 'f'} {
            assert j > 0 ==> options[j] == rest[j - 1];
          }
        }
      }
      forall k: nat | k < |options| && options[k] == 'i' && forall j: nat :: j < k ==> options[j] !in {'e', 'f'}
        ensures OptionsInPlace(options)
      {
        if k > 0 {
          assert options[0] !in {'e', 'f'};
          assert rest[k - 1] == 'i' && forall j: nat :: j < k - 1 ==> rest[j] == options[j + 1];
        }
      }
    }
  }

  // ---------------------------------------------------------------------------------------------
  // Wrappers

  /** The last component of a path; none when the path ends in `..` or names nothing. */
  function FileName(path: string): Option<string>
    decreases |path|
  {
    match RSplitOnce(path, '/')
    case None => NormalComponent(path, None)
    case Some((parent, last)) => NormalComponent(last, Some(parent))
  }

  function NormalComponent(last: string, parent: Option<string>): Option<string>
    decreases |last| + if parent.Some? then |parent.value| + 1 else 0, 0
  {
    if last == ".." then None
    else if last == "" || last == "." then (if parent.Some? then FileName(parent.value) else None)
    else Some(last)
  }

  predicate IsWrapper(arg: string) {
    var program := FileName(arg);
    program.Some? && (program.value == "command" || ('=' in program.value && '/' !in program.value))
  }

  function Stripped(argv: seq<string>): seq<string> {
    if argv != [] && IsWrapper(argv[0]) then Stripped(argv[1..]) else argv
  }

  method StripKnownCommandWrappers(argv: seq<string>) returns (r: seq<string>)
    ensures r == Stripped(argv)
  {
    r := argv;
    while true
      invariant Stripped(r) == Stripped(argv)
      decreases |r|
    {
      var program := if r == [] then None else FileName(r[0]);
      if program.None? {
        return;
      }
      if program.value == "command" || ('=' in program.value && '/' !in program.value) {
        r := r[1..];
      } else {
        return;
      }
    }
  }

  /** The number of wrappers in front. */
  ghost predicate LeadingWrappers(argv: seq<string>, k: nat) {
    && k <= |argv|
    && (forall j: nat :: j < k ==> IsWrapper(argv[j]))
    && (k < |argv| ==> !IsWrapper(argv[k]))
  }

  /** A word without a slash is a wrapper when it is `command` or assigns a variable. */
  lemma PlainWrapper(word: string)
    requires '/' !in word
    ensures IsWrapper(word) <==> word == "command" || '=' in word
  {
    RSplitOnceAbsent(word, '/');
    assert FileName(word) == NormalComponent(word, None);
    assert NormalComponent(word, None) == if word in {"", ".", ".."} then None else Some(word);
  }

  /** A path is a wrapper when its last component, the dots aside, would be one. */
  lemma PathWrapper(directory: string, name: string)
    requires '/' !in name && name !in {"", ".", ".."}
    ensures IsWrapper(directory + ['/'] + name) <==> name == "command" || '=' in name
  {
    RSplitOnceAt(directory, '/', name);
    assert FileName(directory + ['/'] + name) == NormalComponent(name, Some(directory)) == Some(name);
  }

  /** A path that ends in two dots names no program; dots and slashes at its end are passed over. */
  lemma PathOfDots(directory: string)
    ensures !IsWrapper(directory + ['/'] + "..")
    ensures IsWrapper(directory + ['/'] + ".") <==> IsWrapper(directory)
    ensures IsWrapper(directory + ['/'] + "") <==> IsWrapper(directory)
  {
    RSplitOnceAt(directory, '/', "..");
    RSplitOnceAt(directory, '/', ".");
    RSplitOnceAt(directory, '/', "");
    assert FileName(directory + ['/'] + "..") == NormalComponent("..", Some(directory)) == None;
    assert FileName(directory + ['/'] + ".") == NormalComponent(".", Some(directory)) == FileName(directory);
    assert FileName(directory + ['/'] + "") == NormalComponent("", Some(directory)) == FileName(directory);
  }

  lemma RSplitOnceAbsent(s: string, c: char)
    requires c !in s
    ensures RSplitOnce(s, c) == None
  {}

  /** What is left is what follows the leading wrappers: a suffix that no wrapper starts. */
  lemma {:induction false} StrippedIsTheRest(argv: seq<string>, k: nat)
    requires LeadingWrappers(argv, k)
    ensures Stripped(argv) == argv[k..]
    ensures Stripped(Stripped(argv)) == Stripped(argv)
    decreases k
  {
    if k == 0 {
      assert argv[0..] == argv;
    } else {
      var rest := argv[1..];
      assert IsWrapper(argv[0]);
      assert rest[k - 1..] == argv[k..];
      forall j: nat | j < k - 1 ensures IsWrapper(rest[j]) {
        assert rest[j] == argv[j + 1];
      }
      StrippedIsTheRest(rest, k - 1);
    }
  }

  lemma {:induction false} SomeWrappersLead(argv: seq<string>)
    ensures exists k: nat :: LeadingWrappers(argv, k)
  {
    if argv == [] || !IsWrapper(argv[0]) {
      assert LeadingWrappers(argv, 0);
    } else {
      SomeWrappersLead(argv[1..]);
      var k: nat :| LeadingWrappers(argv[1..], k);
      forall j: nat | j < k + 1 ensures IsWrapper(argv[j]) {
        assert j > 0 ==> argv[j] == argv[1..][j - 1];
      }
      assert k + 1 < |argv| ==> argv[k + 1] == argv[1..][k];
      assert LeadingWrappers(argv, k + 1);
    }
  }

  /** Stripping leaves a suffix, and stripping again leaves it alone. */
  lemma StrippingIsIdempotent(argv: seq<string>)
    ensures exists k: nat :: LeadingWrappers(argv, k) && Stripped(argv) == argv[k..]
    ensures Stripped(Stripped(argv)) == Stripped(argv)
  {
    SomeWrappersLead(argv);
    var k: nat :| LeadingWrappers(argv, k);
    StrippedIsTheRest(argv, k);
  }

  // ---------------------------------------------------------------------------------------------
  // git

  predicate TakesValue(arg: string) {
    arg in {"-C", "-c", "--git-dir", "--work-tree", "--namespace"}
  }

  function SubcommandFrom(argv: seq<string>, index: nat): Option<nat>
    decreases if index <= |argv| then |argv| - index else 0
  {
    if index >= |argv| then None
    else if TakesValue(argv[index]) then SubcommandFrom(argv, index + 2)
    else if "-" <= argv[index] then SubcommandFrom(argv, index + 1)
    else Some(index)
  }

  method GitSubcommand(argv: seq<string>) returns (r: Option<(nat, string)>)
    ensures r == match SubcommandFrom(argv, 1) case Some(i) => (if i < |argv| then Some((i, argv[i])) else None) case None => None
    ensures r.None? <==> SubcommandFrom(argv, 1).None?
  {
    var index := 1;
    while index < |argv|
      invariant index >= 1 && SubcommandFrom(argv, index) == SubcommandFrom(argv, 1)
      decreases |argv| - index
    {
      var arg := argv[index];
      if TakesValue(arg) {
        index := index + 2;
      } else if "--git-dir=" <= arg || "--work-tree=" <= arg || "--namespace=" <= arg {
        DashComesFirst(arg);
        index := index + 1;
      } else if "-" <= arg {
        index := index + 1;
      } else {
        return Some((index, arg));
      }
    }
    return None;
  }

  lemma DashComesFirst(arg: string)
    requires "--git-dir=" <= arg || "--work-tree=" <= arg || "--namespace=" <= arg
    ensures "-" <= arg && !TakesValue(arg)
  {
    if "--git-dir=" <= arg {
      assert arg[9] == '=';
    } else if "--work-tree=" <= arg {
      assert arg[11] == '=';
    } else {
      assert arg[11] == '=';
    }
  }

  /** An argument of `git` that the option before it takes as its value. */
  ghost predicate IsValue(argv: seq<string>, i: nat)
    requires i <= |argv|
  {
    i > 1 && TakesValue(argv[i - 1]) && !IsValue(argv, i - 1)
  }

  ghost predicate IsOptionOrValue(argv: seq<string>, i: nat)
    requires i < |argv|
  {
    IsValue(argv, i) || "-" <= argv[i]
  }

  ghost predicate IsFirstPlain(argv: seq<string>, from: nat, i: nat) {
    from <= i < |argv| && !IsOptionOrValue(argv, i) && forall j: nat :: from <= j < i ==> IsOptionOrValue(argv, j)
  }

  lemma {:induction false} SubcommandFromIsFirst(argv: seq<string>, index: nat)
    requires 1 <= index && (index <= |argv| ==> !IsValue(argv, index))
    ensures match SubcommandFrom(argv, index)
            case Some(i) => IsFirstPlain(argv, index, i)
            case None => forall j: nat :: index <= j < |argv| ==> IsOptionOrValue(argv, j)
    decreases if index <= |argv| then |argv| - index else 0
  {
    if index < |argv| {
      if TakesValue(argv[index]) {
        assert "-" <= argv[index];
        assert index + 1 <= |argv| ==> IsValue(argv, index + 1);
        SubcommandFromIsFirst(argv, index + 2);
      } else if "-" <= argv[index] {
        SubcommandFromIsFirst(argv, index + 1);
      }
    }
  }

  lemma ValueOptionsHaveDash(word: string)
    ensures TakesValue(word) ==> "-" <= word
  {}

  /** Of the options of `git`, these five take the next word as their value, and no other does. */
  lemma ValueIsSkippedExactly(option: string, value: string, subcommand: string)
    requires "-" <= option && !("-" <= value) && !("-" <= subcommand)
    ensures SubcommandFrom(["git", option, value, subcommand], 1)
         == Some(if option in {"-C", "-c", "--git-dir", "--work-tree", "--namespace"} then 3 else 2)
  {
    var argv := ["git", option, value, subcommand];
    ValueOptionsHaveDash(value);
    ValueOptionsHaveDash(subcommand);
    assert SubcommandFrom(argv, 2) == Some(2) && SubcommandFrom(argv, 3) == Some(3);
  }

  lemma OneIsFirst(argv: seq<string>, i: nat, j: nat)
    requires IsFirstPlain(argv, 1, i) && IsFirstPlain(argv, 1, j)
    ensures i == j
  {}

  /** The subcommand is the first argument that is neither an option nor an option's value. */
  lemma SubcommandIsFirstPlain(argv: seq<string>, i: nat)
    ensures SubcommandFrom(argv, 1) == Some(i) <==> IsFirstPlain(argv, 1, i)
  {
    SubcommandFromIsFirst(argv, 1);
    var r := SubcommandFrom(argv, 1);
    if IsFirstPlain(argv, 1, i) && r.Some? {
      OneIsFirst(argv, i, r.value);
    }
  }
}
