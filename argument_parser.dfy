/** The command-line scanner: the first token picks the mode, every later token
    is trimmed and is either a switch, a switch that takes the next raw token as
    its value, or a bare word, which is a database name only right after /DB or
    /ALL (or after another such name). */
module ArgumentParser {
  import opened Types
  import opened Text
  import A = Arguments
  import Numbers
  import ParsedArgs

  /** The switches recognised after the mode. */
  datatype Switch =
    | DbSwitch | AllSwitch | LogSwitch | RecoverySwitch | VerifySwitch
    | ConnSwitch | DirSwitch | FileSwitch | IdSwitch | DismountSwitch

  /** The switch keywords, upper-cased, and the switch each names. */
  const SwitchNames: seq<(string, Switch)> := [
    ("/DB", DbSwitch), ("/ALL", AllSwitch), ("/LOG", LogSwitch),
    ("/FULL", RecoverySwitch), ("/BULK", RecoverySwitch), ("/SIMPLE", RecoverySwitch),
    ("/VERIFY", VerifySwitch), ("/C", ConnSwitch), ("/DIR", DirSwitch),
    ("/FILE", FileSwitch), ("/ID", IdSwitch), ("/DISMOUNT", DismountSwitch)]

  /** The switch a trimmed token names, compared without regard to case. */
  function Classify(arg: string): Option<Switch> {
    Lookup(arg, SwitchNames)
  }

  /** /C, /DIR, /FILE and /ID consume the following token. */
  predicate TakesValue(f: Switch) {
    f == ConnSwitch || f == DirSwitch || f == FileSwitch || f == IdSwitch
  }

  /** A token found in a table whose keywords all start with the flag marker
      starts with it too. */
  lemma {:induction false} LookupStartsWithSlash(arg: string, table: seq<(string, Switch)>)
    requires forall k :: 0 <= k < |table| ==> StartsWithSlash(table[k].0)
    requires Lookup(arg, table).Some?
    ensures StartsWithSlash(arg)
  {
    if !UpperMatches(arg, table[0].0) {
      LookupStartsWithSlash(arg, table[1..]);
    }
  }

  /** Every recognised switch starts with the flag marker. */
  lemma ClassifiedStartsWithSlash(arg: string)
    requires Classify(arg).Some?
    ensures StartsWithSlash(arg)
  {
    LookupStartsWithSlash(arg, SwitchNames);
  }

  /** The setter a switch without a value calls. */
  function SwitchMutation(f: Switch, arg: string): A.Mutation
    requires !TakesValue(f)
  {
    match f
    case DbSwitch => A.ClearUseAll
    case AllSwitch => A.UseAll
    case LogSwitch => A.LogFlag
    case RecoverySwitch => A.Recovery(arg)
    case VerifySwitch => A.VerifyFlag
    case DismountSwitch => A.DismountFlag
  }

  /** The setter a value-taking switch calls with the raw following token. */
  function ValueMutation(f: Switch, value: string): A.Mutation
    requires TakesValue(f)
  {
    match f
    case ConnSwitch => A.ConnStr(value)
    case DirSwitch => A.Place(value, true)
    case FileSwitch => A.Place(value, false)
    case IdSwitch => A.Index(value)
  }

  /** What the scanner does with the token at `i`: raise an error, or call one
      setter, move `width` tokens on and continue with the database-list context
      `reading`. It looks at the tokens only, never at the argument state. */
  datatype Step = Reject(e: Error) | Take(m: A.Mutation, width: nat, reading: bool)

  function Decide(args: seq<string>, i: nat, reading: bool): (s: Step)
    requires i < |args|
    ensures s.Take? ==> 1 <= s.width <= 2 && i + s.width <= |args| && !s.m.ModeArg?
  {
    var arg := Trim(args[i]);
    var open := reading && !StartsWithSlash(arg);
    match Classify(arg)
    case None =>
      if open then Take(A.AddName(arg), 1, true) else Reject(UnknownArgument(arg))
    case Some(f) =>
      if !TakesValue(f) then
        Take(SwitchMutation(f, arg), 1, f == DbSwitch || f == AllSwitch || open)
      else if i + 1 == |args| then Reject(MissingValue(arg))
      else Take(ValueMutation(f, args[i + 1]), 2, open)
  }

  /** The loop of `Parse` from token `i` on, with the database-list context
      `reading`, as a function. */
  function ScanFrom(a: A.Args, args: seq<string>, i: nat, reading: bool): Result<A.Args>
    requires i <= |args|
    decreases |args| - i
  {
    if i == |args| then Success(a)
    else
      match Decide(args, i, reading)
      case Reject(e) => Failure(e)
      case Take(m, width, next) =>
        var b :- A.Apply(a, m);
        ScanFrom(b, args, i + width, next)
  }

  /** `ArgumentParser.Parse` as a function: no tokens means help; otherwise the
      mode, the remaining tokens, and the final validation. */
  function Scan(args: seq<string>): Result<A.Args> {
    if |args| == 0 then A.SetMode(A.Initial, "/?")
    else
      var a :- A.SetMode(A.Initial, args[0]);
      var b :- ScanFrom(a, args, 1, false);
      var v := A.Validate(b);
      if v.Fail? then Failure(v.error) else Success(b)
  }

  // ---------------------------------------------------------------------------
  // A reference tokenisation, independent of the argument state

  datatype Token =
    | Word(text: string)
    | Plain(flag: Switch, text: string)
    | Valued(flag: Switch, value: string)
    | Dangling(flag: Switch)

  /** Splits the tokens from `i` on into words, switches, and switches with the
      raw token that follows them (or with none, at the end). */
  function Lex(args: seq<string>, i: nat): seq<Token>
    requires i <= |args|
    decreases |args| - i
  {
    if i == |args| then []
    else
      var arg := Trim(args[i]);
      match Classify(arg)
      case None => [Word(arg)] + Lex(args, i + 1)
      case Some(f) =>
        if !TakesValue(f) then [Plain(f, arg)] + Lex(args, i + 1)
        else if i + 1 == |args| then [Dangling(f)]
        else [Valued(f, args[i + 1])] + Lex(args, i + 2)
  }

  /** The bare words, in order. */
  function Words(toks: seq<Token>): seq<string> {
    if toks == [] then []
    else if toks[0].Word? then [toks[0].text] + Words(toks[1..])
    else Words(toks[1..])
  }

  predicate OpensList(t: Token) {
    t.Plain? && (t.flag == DbSwitch || t.flag == AllSwitch)
  }

  /** Every bare word is not flag-like and directly follows /DB, /ALL or another
      bare word; the first one only if `open`. */
  predicate WordsPlaced(toks: seq<Token>, open: bool) {
    forall k {:trigger toks[k]} :: 0 <= k < |toks| && toks[k].Word? ==>
      && !StartsWithSlash(toks[k].text)
      && (if k == 0 then open else toks[k - 1].Word? || OpensList(toks[k - 1]))
  }

  /** Sequence concatenation is associative; kept apart so that the scan
      lemmas do not prove it by extensionality in their own, larger context. */
  lemma AppendAssoc(x: seq<string>, y: seq<string>, z: seq<string>)
    ensures (x + y) + z == x + (y + z)
  {
  }

  lemma WordsCons(t: Token, rest: seq<Token>)
    ensures Words([t] + rest) == (if t.Word? then [t.text] else []) + Words(rest)
  {
    assert ([t] + rest)[1..] == rest;
  }

  /** The setter call a token stands for: a name for a bare word, the switch's
      setter otherwise; none for a switch left without its value. */
  function TokenMutation(t: Token): Option<A.Mutation> {
    match t
    case Word(text) => Some(A.AddName(text))
    case Plain(f, text) => if TakesValue(f) then None else Some(SwitchMutation(f, text))
    case Valued(f, v) => if TakesValue(f) then Some(ValueMutation(f, v)) else None
    case Dangling(_) => None
  }

  /** The argument state the tokens' setters build from `a`, one call after the
      other; none when a token stands for no call or a setter fails. */
  function Built(a: A.Args, toks: seq<Token>): Option<A.Args>
    decreases |toks|
  {
    if toks == [] then Some(a)
    else match TokenMutation(toks[0])
      case None => None
      case Some(m) =>
        match A.Apply(a, m)
        case Failure(_) => None
        case Success(b) => Built(b, toks[1..])
  }

  /** The value of the first `f` switch that has one. */
  function ValueOf(toks: seq<Token>, f: Switch): Option<string>
    decreases |toks|
  {
    if toks == [] then None
    else if toks[0].Valued? && toks[0].flag == f then Some(toks[0].value)
    else ValueOf(toks[1..], f)
  }

  /** The text of the first `f` switch without a value. */
  function PlainText(toks: seq<Token>, f: Switch): Option<string>
    decreases |toks|
  {
    if toks == [] then None
    else if toks[0].Plain? && toks[0].flag == f then Some(toks[0].text)
    else PlainText(toks[1..], f)
  }

  predicate Mentions(toks: seq<Token>, f: Switch) {
    PlainText(toks, f).Some?
  }

  /** The first of /DB and /ALL: whether it is /ALL. */
  function SelectionOf(toks: seq<Token>): Option<bool>
    decreases |toks|
  {
    if toks == [] then None
    else if OpensList(toks[0]) then Some(toks[0].flag == AllSwitch)
    else SelectionOf(toks[1..])
  }

  /** The first of /DIR and /FILE: its location and whether it is /DIR. */
  function LocationOf(toks: seq<Token>): Option<(string, bool)>
    decreases |toks|
  {
    if toks == [] then None
    else if toks[0].Valued? && (toks[0].flag == DirSwitch || toks[0].flag == FileSwitch) then
      Some((toks[0].value, toks[0].flag == DirSwitch))
    else LocationOf(toks[1..])
  }

  /** What one token's setter does to each field it may set, and what it
      demands of that field beforehand. */
  lemma TokenStep(a: A.Args, t: Token)
    requires TokenMutation(t).Some? && A.Apply(a, TokenMutation(t).value).Success?
    ensures var b := A.Apply(a, TokenMutation(t).value).value;
      && (if t.Valued? && t.flag == ConnSwitch
          then a.connectionString == None && b.connectionString == Some(A.ResolveAlias(t.value))
          else b.connectionString == a.connectionString)
      && (if t.Valued? && (t.flag == DirSwitch || t.flag == FileSwitch)
          then a.backupLocation == None && b.backupLocation == Some(t.value) && b.isDirectory == (t.flag == DirSwitch)
          else b.backupLocation == a.backupLocation && b.isDirectory == a.isDirectory)
      && (if t.Valued? && t.flag == IdSwitch
          then a.fileIndex == 0 && Numbers.TryParseInt32(t.value) == Some(b.fileIndex) && b.fileIndex != 0
          else b.fileIndex == a.fileIndex)
      && (if t.Plain? && t.flag == VerifySwitch then !a.verify && b.verify else b.verify == a.verify)
      && (if t.Plain? && t.flag == LogSwitch then !a.doLogBackup && b.doLogBackup else b.doLogBackup == a.doLogBackup)
      && (if t.Plain? && t.flag == DismountSwitch then !a.dismountDb && b.dismountDb else b.dismountDb == a.dismountDb)
      && (if OpensList(t) then a.useAllDb == None && b.useAllDb == Some(t.flag == AllSwitch) else b.useAllDb == a.useAllDb)
      && (if t.Plain? && t.flag == RecoverySwitch
          then a.recoveryModel == None && b.recoveryModel == A.RecoveryToken(t.text) && b.recoveryModel.Some?
          else b.recoveryModel == a.recoveryModel)
  {
    match t {
      case Word(_) =>
      case Plain(f, _) =>
        match f {
          case DbSwitch =>
          case AllSwitch =>
          case LogSwitch =>
          case RecoverySwitch =>
          case VerifySwitch =>
          case DismountSwitch =>
          case _ =>
        }
      case Valued(f, _) =>
        match f {
          case ConnSwitch =>
          case DirSwitch =>
          case FileSwitch =>
          case IdSwitch =>
          case _ =>
        }
    }
  }

  /** /C is write-once and stores the alias-resolved value of its token. */
  lemma {:induction false} BuiltConnection(a: A.Args, toks: seq<Token>)
    requires Built(a, toks).Some?
    ensures a.connectionString.Some? ==> ValueOf(toks, ConnSwitch) == None
    ensures Built(a, toks).value.connectionString ==
      match ValueOf(toks, ConnSwitch)
      case None => a.connectionString
      case Some(v) => Some(A.ResolveAlias(v))
    decreases |toks|
  {
    if toks != [] {
      var b := A.Apply(a, TokenMutation(toks[0]).value).value;
      TokenStep(a, toks[0]);
      BuiltConnection(b, toks[1..]);
    }
  }

  /** /DIR and /FILE are write-once together: the first stores its location
      verbatim and says whether it is a directory. */
  lemma {:induction false} BuiltLocation(a: A.Args, toks: seq<Token>)
    requires Built(a, toks).Some?
    ensures a.backupLocation.Some? ==> LocationOf(toks) == None
    ensures var r := Built(a, toks).value;
      match LocationOf(toks)
      case None => r.backupLocation == a.backupLocation && r.isDirectory == a.isDirectory
      case Some(l) => r.backupLocation == Some(l.0) && r.isDirectory == l.1
    decreases |toks|
  {
    if toks != [] {
      var b := A.Apply(a, TokenMutation(toks[0]).value).value;
      TokenStep(a, toks[0]);
      BuiltLocation(b, toks[1..]);
    }
  }

  /** /ID is write-once and stores the non-zero integer its token parses to. */
  lemma {:induction false} BuiltFileIndex(a: A.Args, toks: seq<Token>)
    requires Built(a, toks).Some?
    ensures a.fileIndex != 0 ==> ValueOf(toks, IdSwitch) == None
    ensures var r := Built(a, toks).value;
      match ValueOf(toks, IdSwitch)
      case None => r.fileIndex == a.fileIndex
      case Some(v) => Numbers.TryParseInt32(v) == Some(r.fileIndex) && r.fileIndex != 0
    decreases |toks|
  {
    if toks != [] {
      var b := A.Apply(a, TokenMutation(toks[0]).value).value;
      TokenStep(a, toks[0]);
      BuiltFileIndex(b, toks[1..]);
    }
  }

  /** /VERIFY, /LOG and /DISMOUNT each turn their flag on, at most once. */
  lemma {:induction false} BuiltFlags(a: A.Args, toks: seq<Token>)
    requires Built(a, toks).Some?
    ensures a.verify ==> !Mentions(toks, VerifySwitch)
    ensures a.doLogBackup ==> !Mentions(toks, LogSwitch)
    ensures a.dismountDb ==> !Mentions(toks, DismountSwitch)
    ensures var r := Built(a, toks).value;
      && r.verify == (a.verify || Mentions(toks, VerifySwitch))
      && r.doLogBackup == (a.doLogBackup || Mentions(toks, LogSwitch))
      && r.dismountDb == (a.dismountDb || Mentions(toks, DismountSwitch))
    decreases |toks|
  {
    if toks != [] {
      var b := A.Apply(a, TokenMutation(toks[0]).value).value;
      TokenStep(a, toks[0]);
      BuiltFlags(b, toks[1..]);
    }
  }

  /** The first of /DB and /ALL fixes the selection, and neither may follow. */
  lemma {:induction false} BuiltSelection(a: A.Args, toks: seq<Token>)
    requires Built(a, toks).Some?
    ensures a.useAllDb.Some? ==> SelectionOf(toks) == None
    ensures Built(a, toks).value.useAllDb ==
      if SelectionOf(toks).Some? then SelectionOf(toks) else a.useAllDb
    decreases |toks|
  {
    if toks != [] {
      var b := A.Apply(a, TokenMutation(toks[0]).value).value;
      TokenStep(a, toks[0]);
      BuiltSelection(b, toks[1..]);
    }
  }

  /** The first recovery switch fixes the recovery model it names, and no other
      may follow. */
  lemma {:induction false} BuiltRecovery(a: A.Args, toks: seq<Token>)
    requires Built(a, toks).Some?
    ensures a.recoveryModel.Some? ==> PlainText(toks, RecoverySwitch) == None
    ensures var r := Built(a, toks).value;
      match PlainText(toks, RecoverySwitch)
      case None => r.recoveryModel == a.recoveryModel
      case Some(t) => r.recoveryModel == A.RecoveryToken(t) && r.recoveryModel.Some?
    decreases |toks|
  {
    if toks != [] {
      var b := A.Apply(a, TokenMutation(toks[0]).value).value;
      TokenStep(a, toks[0]);
      BuiltRecovery(b, toks[1..]);
    }
  }

  /** Placement is checked one token at a time: a word in front needs an open
      list context, and the context the rest starts in must have been opened
      by the token in front. */
  lemma WordsPlacedCons(t: Token, rest: seq<Token>, open: bool, next: bool)
    requires WordsPlaced(rest, next)
    requires t.Word? ==> open && !StartsWithSlash(t.text)
    requires next ==> t.Word? || OpensList(t)
    ensures WordsPlaced([t] + rest, open)
  {
    var toks := [t] + rest;
    forall k | 0 <= k < |toks| && toks[k].Word?
      ensures !StartsWithSlash(toks[k].text)
      ensures if k == 0 then open else toks[k - 1].Word? || OpensList(toks[k - 1])
    {
      if k > 0 {
        var j := k - 1;
        assert toks[k] == rest[j];
        assert 0 <= j < |rest| && rest[j].Word?;
        assert !StartsWithSlash(rest[j].text)
          && (if j == 0 then next else rest[j - 1].Word? || OpensList(rest[j - 1]));
        if j > 0 {
          assert toks[k - 1] == rest[j - 1];
        } else {
          assert toks[0] == t;
        }
      }
    }
  }

  /** The scanner's step and the reference tokenisation agree on the token at
      `i`: a name is added exactly for a bare word, in a list context and not
      flag-like; a value switch is never the last token; the list context after a
      step is open only after a name, /DB or /ALL. */
  lemma DecideMatchesLex(args: seq<string>, i: nat, reading: bool)
    requires i < |args|
    requires Decide(args, i, reading).Take?
    ensures var s := Decide(args, i, reading);
      var toks := Lex(args, i);
      && toks == [toks[0]] + Lex(args, i + s.width)
      && (s.m.AddName? <==> toks[0].Word?)
      && (toks[0].Word? ==> s.m.name == toks[0].text && reading && !StartsWithSlash(toks[0].text))
      && !toks[0].Dangling?
      && (s.reading ==> toks[0].Word? || OpensList(toks[0]))
  {
    var arg := Trim(args[i]);
    match Classify(arg)
    case None =>
      assert Lex(args, i) == [Word(arg)] + Lex(args, i + 1);
    case Some(f) =>
      ClassifiedStartsWithSlash(arg);
      if !TakesValue(f) {
        assert Lex(args, i) == [Plain(f, arg)] + Lex(args, i + 1);
      } else {
        assert Lex(args, i) == [Valued(f, args[i + 1])] + Lex(args, i + 2);
      }
  }

  /** The scanner's step calls exactly the setter the reference token stands
      for: the switch's own setter, a value switch's with the raw following
      token, or `AddDb` for a bare word. */
  lemma DecideIsTokenMutation(args: seq<string>, i: nat, reading: bool)
    requires i < |args|
    requires Decide(args, i, reading).Take?
    ensures var s := Decide(args, i, reading);
      && Lex(args, i) == [Lex(args, i)[0]] + Lex(args, i + s.width)
      && TokenMutation(Lex(args, i)[0]) == Some(s.m)
  {
    var arg := Trim(args[i]);
    match Classify(arg)
    case None =>
      assert Lex(args, i) == [Word(arg)] + Lex(args, i + 1);
    case Some(f) =>
      if !TakesValue(f) {
        assert Lex(args, i) == [Plain(f, arg)] + Lex(args, i + 1);
      } else {
        assert Lex(args, i) == [Valued(f, args[i + 1])] + Lex(args, i + 2);
      }
  }

  /** The scan keeps the mode and appends exactly the bare words. */
  lemma {:induction false} ScanFromNames(a: A.Args, args: seq<string>, i: nat, reading: bool)
    requires i <= |args|
    requires ScanFrom(a, args, i, reading).Success?
    ensures var b := ScanFrom(a, args, i, reading).value;
      && b.databases == a.databases + Words(Lex(args, i))
      && b.mode == a.mode
    decreases |args| - i
  {
    if i < |args| {
      var s := Decide(args, i, reading);
      var b := A.Apply(a, s.m).value;
      assert ScanFrom(a, args, i, reading) == ScanFrom(b, args, i + s.width, s.reading);
      ScanFromNames(b, args, i + s.width, s.reading);
      A.ApplyKeepsModeAndList(a, s.m);
      var toks := Lex(args, i);
      var rest := Lex(args, i + s.width);
      var w: seq<string> := if s.m.AddName? then [s.m.name] else [];
      assert Words(toks) == w + Words(rest) by {
        DecideMatchesLex(args, i, reading);
        WordsCons(toks[0], rest);
      }
      var final := ScanFrom(b, args, i + s.width, s.reading).value;
      assert final.databases == (a.databases + w) + Words(rest);
      AppendAssoc(a.databases, w, Words(rest));
    }
  }

  /** The scan's successful result is the state the reference tokens' setters
      build. */
  lemma {:induction false} ScanFromBuilds(a: A.Args, args: seq<string>, i: nat, reading: bool)
    requires i <= |args|
    requires ScanFrom(a, args, i, reading).Success?
    ensures Built(a, Lex(args, i)) == Some(ScanFrom(a, args, i, reading).value)
    decreases |args| - i
  {
    if i < |args| {
      var s := Decide(args, i, reading);
      DecideIsTokenMutation(args, i, reading);
      var b := A.Apply(a, s.m).value;
      assert ScanFrom(a, args, i, reading) == ScanFrom(b, args, i + s.width, s.reading);
      ScanFromBuilds(b, args, i + s.width, s.reading);
      BuiltCons(a, Lex(args, i)[0], Lex(args, i + s.width));
    }
  }

  /** `Built` one token at a time. */
  lemma BuiltCons(a: A.Args, t: Token, rest: seq<Token>)
    requires TokenMutation(t).Some? && A.Apply(a, TokenMutation(t).value).Success?
    ensures Built(a, [t] + rest) == Built(A.Apply(a, TokenMutation(t).value).value, rest)
  {
    assert ([t] + rest)[1..] == rest;
  }

  /** A successful scan leaves no value-taking switch without its value. */
  lemma {:induction false} ScanFromNoDangling(a: A.Args, args: seq<string>, i: nat, reading: bool)
    requires i <= |args|
    requires ScanFrom(a, args, i, reading).Success?
    ensures forall t :: t in Lex(args, i) ==> !t.Dangling?
    decreases |args| - i
  {
    if i < |args| {
      var s := Decide(args, i, reading);
      ScanFromNoDangling(A.Apply(a, s.m).value, args, i + s.width, s.reading);
      DecideMatchesLex(args, i, reading);
    }
  }

  /** A successful scan only ever took a bare word as a name where a list was
      open. */
  lemma {:induction false} ScanFromPlaced(a: A.Args, args: seq<string>, i: nat, reading: bool)
    requires i <= |args|
    requires ScanFrom(a, args, i, reading).Success?
    ensures WordsPlaced(Lex(args, i), reading)
    decreases |args| - i
  {
    if i < |args| {
      var s := Decide(args, i, reading);
      ScanFromPlaced(A.Apply(a, s.m).value, args, i + s.width, s.reading);
      DecideMatchesLex(args, i, reading);
      var toks := Lex(args, i);
      WordsPlacedCons(toks[0], Lex(args, i + s.width), reading, s.reading);
    }
  }

  lemma {:induction false} ScanFromConsistent(a: A.Args, args: seq<string>, i: nat, reading: bool)
    requires i <= |args|
    requires A.Consistent(a)
    requires ScanFrom(a, args, i, reading).Success?
    ensures A.Consistent(ScanFrom(a, args, i, reading).value)
    decreases |args| - i
  {
    if i < |args| {
      var s := Decide(args, i, reading);
      A.ApplyKeepsConsistent(a, s.m);
      ScanFromConsistent(A.Apply(a, s.m).value, args, i + s.width, s.reading);
    }
  }

  /** No tokens at all means help, with nothing else set and no error. */
  lemma EmptyArgumentsMeanHelp()
    ensures Scan([]) == Success(A.Initial.(mode := Help))
  {
    assert ToUpper("/?") == "/?";
  }

  /** A successful parse of a non-empty command line: the mode is the first
      token's, the state has passed validation and is consistent, and the
      database names are exactly the bare words, trimmed, in input order. Every
      bare word sits right after /DB, /ALL or another name and does not look
      like a switch, and no value-taking switch is the last token. */
  lemma ParseShape(args: seq<string>)
    requires |args| > 0
    requires Scan(args).Success?
    ensures var b := Scan(args).value;
      && A.ModeToken(args[0]) == Some(b.mode)
      && A.Complete(b)
      && A.Consistent(b)
      && b.databases == Words(Lex(args, 1))
    ensures forall t :: t in Lex(args, 1) ==> !t.Dangling?
    ensures WordsPlaced(Lex(args, 1), false)
  {
    var a := A.SetMode(A.Initial, args[0]).value;
    ScanFromNames(a, args, 1, false);
    ScanFromNoDangling(a, args, 1, false);
    ScanFromPlaced(a, args, 1, false);
    ScanFromConsistent(a, args, 1, false);
  }

  /** A successful parse holds the state the reference tokens' setters build
      from the first token's mode. */
  lemma ParseBuilds(args: seq<string>)
    requires |args| > 0
    requires Scan(args).Success?
    ensures Built(A.Initial.(mode := A.ModeToken(args[0]).value), Lex(args, 1)) == Some(Scan(args).value)
  {
    ScanFromBuilds(A.SetMode(A.Initial, args[0]).value, args, 1, false);
  }

  /** A successful parse of a non-empty command line sets every other field
      from the first switch that names it, and leaves it unset when no switch
      does: /DB or /ALL the selection; /C the alias-resolved connection string;
      /DIR or /FILE the location, verbatim, and whether it is a directory; /ID
      the non-zero index its token parses to; /VERIFY, /LOG and /DISMOUNT their
      flags; /FULL, /BULK or /SIMPLE the recovery model. */
  lemma ParseSetsFields(args: seq<string>)
    requires |args| > 0
    requires Scan(args).Success?
    ensures var b := Scan(args).value;
      var toks := Lex(args, 1);
      && b.useAllDb == SelectionOf(toks)
      && b.connectionString == (match ValueOf(toks, ConnSwitch)
           case None => None
           case Some(v) => Some(A.ResolveAlias(v)))
      && b.backupLocation == (match LocationOf(toks)
           case None => None
           case Some(l) => Some(l.0))
      && b.isDirectory == (LocationOf(toks).Some? && LocationOf(toks).value.1)
      && (match ValueOf(toks, IdSwitch)
           case None => b.fileIndex == 0
           case Some(v) => Numbers.TryParseInt32(v) == Some(b.fileIndex) && b.fileIndex != 0)
      && b.verify == Mentions(toks, VerifySwitch)
      && b.doLogBackup == Mentions(toks, LogSwitch)
      && b.dismountDb == Mentions(toks, DismountSwitch)
      && b.recoveryModel == (match PlainText(toks, RecoverySwitch)
           case None => None
           case Some(t) => A.RecoveryToken(t))
  {
    var a := A.Initial.(mode := A.ModeToken(args[0]).value);
    var toks := Lex(args, 1);
    ParseBuilds(args);
    BuiltSelection(a, toks);
    BuiltConnection(a, toks);
    BuiltLocation(a, toks);
    BuiltFileIndex(a, toks);
    BuiltFlags(a, toks);
    BuiltRecovery(a, toks);
  }

  /** A first token that is not a mode keyword fails the parse at once. */
  lemma UnknownModeFails(args: seq<string>)
    requires |args| > 0 && A.ModeToken(args[0]) == None
    ensures Scan(args) == Failure(NotAValidMode(args[0]))
  {
  }

  /** A token that looks like a switch but is none, or a value-taking switch
      without its value, always fails the parse. */
  lemma MalformedTokenFails(args: seq<string>, k: nat)
    requires |args| > 0 && k < |Lex(args, 1)|
    requires Lex(args, 1)[k].Dangling? || (Lex(args, 1)[k].Word? && StartsWithSlash(Lex(args, 1)[k].text))
    ensures Scan(args).Failure?
  {
    if Scan(args).Success? {
      ParseShape(args);
    }
  }

  /** One round of `ScanFrom`: a rejected token or a failing setter ends the
      scan with that failure, otherwise the scan goes on from the new state. */
  lemma ScanFromOneStep(a: A.Args, args: seq<string>, i: nat, reading: bool)
    requires i < |args|
    ensures match Decide(args, i, reading)
      case Reject(e) => ScanFrom(a, args, i, reading) == Failure(e)
      case Take(m, width, next) =>
        match A.Apply(a, m)
        case Failure(e) => ScanFrom(a, args, i, reading) == Failure(e)
        case Success(b) => ScanFrom(a, args, i, reading) == ScanFrom(b, args, i + width, next)
  {
  }

  /** The setter call of a switch without a value. */
  method CallSwitch(p: ParsedArgs.ParsedArguments, f: Switch, arg: string) returns (o: Outcome)
    requires !TakesValue(f)
    modifies p
    ensures ParsedArgs.Followed(A.Apply(old(p.Snapshot()), SwitchMutation(f, arg)), o, old(p.Snapshot()), p.Snapshot())
  {
    match f {
      case DbSwitch => o := p.ClearUseAllDb();
      case AllSwitch => o := p.SetUseAllDb();
      case LogSwitch => o := p.SetLogBackup();
      case RecoverySwitch => o := p.SetRecoveryModel(arg);
      case VerifySwitch => o := p.SetVerify();
      case DismountSwitch => o := p.SetDismount();
    }
  }

  /** The setter call of a value-taking switch, with the raw following token. */
  method CallValueSwitch(p: ParsedArgs.ParsedArguments, f: Switch, value: string) returns (o: Outcome)
    requires TakesValue(f)
    modifies p
    ensures ParsedArgs.Followed(A.Apply(old(p.Snapshot()), ValueMutation(f, value)), o, old(p.Snapshot()), p.Snapshot())
  {
    match f {
      case ConnSwitch => o := p.SetConnectionString(value);
      case DirSwitch => o := p.SetLocation(value, true);
      case FileSwitch => o := p.SetLocation(value, false);
      case IdSwitch => o := p.SetFileIndex(value);
    }
  }

  /** One round of the scanner's loop: the token at `i` is trimmed, closes the
      database list when it looks like a switch, and then calls the setter its
      switch names (a value switch with the raw token after it), or adds a
      name while the list is open. */
  method ScanToken(p: ParsedArgs.ParsedArguments, args: seq<string>, i: nat, reading: bool)
      returns (o: Outcome, next: nat, nowReading: bool)
    requires i < |args|
    modifies p
    ensures match Decide(args, i, reading)
      case Reject(e) => o == Fail(e) && p.Snapshot() == old(p.Snapshot())
      case Take(m, width, r) =>
        && ParsedArgs.Followed(A.Apply(old(p.Snapshot()), m), o, old(p.Snapshot()), p.Snapshot())
        && next == i + width && nowReading == r
  {
    var arg := Trim(args[i]);
    nowReading := reading;
    if StartsWithSlash(arg) {
      nowReading := false;
    }
    next := i + 1;
    match Classify(arg) {
      case Some(f) =>
        if !TakesValue(f) {
          o := CallSwitch(p, f, arg);
          if f == DbSwitch || f == AllSwitch {
            nowReading := true;
          }
        } else {
          if i + 1 == |args| {
            return Fail(MissingValue(arg)), next, nowReading;
          }
          o := CallValueSwitch(p, f, args[i + 1]);
          next := i + 2;
        }
      case None =>
        if nowReading {
          o := p.AddDb(arg);
        } else {
          o := Fail(UnknownArgument(arg));
        }
    }
  }

  /** The scanner's loop over the tokens after the mode: one round of
      `ScanToken` per token until the end or the first failure. */
  method ScanTokens(p: ParsedArgs.ParsedArguments, args: seq<string>) returns (o: Outcome)
    requires 1 <= |args|
    modifies p
    ensures match ScanFrom(old(p.Snapshot()), args, 1, false)
      case Success(v) => o == Pass && p.Snapshot() == v
      case Failure(e) => o == Fail(e)
  {
    ghost var target := ScanFrom(p.Snapshot(), args, 1, false);
    var isReadingDatabases := false;
    var i := 1;
    while i < |args|
      invariant 1 <= i <= |args|
      invariant ScanFrom(p.Snapshot(), args, i, isReadingDatabases) == target
      decreases |args| - i
    {
      ghost var before := p.Snapshot();
      ghost var here := i;
      ghost var reading := isReadingDatabases;
      o, i, isReadingDatabases := ScanToken(p, args, i, isReadingDatabases);
      ScanFromOneStep(before, args, here, reading);
      if o.Fail? {
        return;
      }
    }
    return Pass;
  }

  /** `ArgumentParser.Parse`: the mode from the first token (help when there is
      none), then the remaining tokens, then the completeness check. */
  method Parse(args: seq<string>) returns (r: Result<ParsedArgs.ParsedArguments>)
    ensures match Scan(args)
      case Success(v) => r.Success? && fresh(r.value) && r.value.Snapshot() == v
      case Failure(e) => r == Failure(e)
  {
    var ret := new ParsedArgs.ParsedArguments();
    var o: Outcome;
    if |args| == 0 {
      o := ret.SetMode("/?");
      assert ToUpper("/?") == "/?";
      return Success(ret);
    }
    o := ret.SetMode(args[0]);
    if o.Fail? {
      return Failure(o.error);
    }
    o := ScanTokens(ret, args);
    if o.Fail? {
      return Failure(o.error);
    }
    o := ret.Validate();
    if o.Fail? {
      return Failure(o.error);
    }
    return Success(ret);
  }
}
