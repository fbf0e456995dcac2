/** The casadm commands spelled out: the argument vector of each, and the job names of those that carry no path. */
module CommandTable {
  import opened Text
  import opened Decimal
  import opened Casadm
  import opened JobName
  import opened JobNames
  import NodePlugin

  // ---- Argument vectors ----

  /** A flag and its value, if there is one. */
  function Flag(flag: string, text: Option<string>): seq<string> {
    if text.Some? then [flag, text.value] else []
  }

  /** The arguments each command is meant to have. */
  function Vector(c: Command): seq<string> {
    match c
    case StartCache(path, mode, lineSize, cacheId) =>
      ["casadm", "--start-cache", "--force"] + ["--cache-device", path]
      + (if cacheId == -1 then [] else ["--cache-id", Print(cacheId)])
      + (if mode == "" then [] else ["--cache-mode", mode])
      + (if lineSize == 0 then [] else ["--cache-line-size", Print(lineSize)])
    case StopCache(cacheId) => ["casadm", "--stop-cache"] + ["--cache-id", Print(cacheId)]
    case AddCore(cacheId, path, coreId) =>
      ["casadm", "--add-core"] + ["--cache-id", Print(cacheId)] + ["--core-device", path]
      + (if coreId == -1 then [] else ["--core-id", Print(coreId)])
    case RemoveCore(cacheId, coreId) =>
      ["casadm", "--remove-core"] + ["--cache-id", Print(cacheId)] + ["--core-id", Print(coreId)]
    case ListCaches => ["casadm", "--list-caches", "--by-id-path", "--output-format", "csv"]
    case Stats(cacheId, coreId) =>
      ["casadm", "--stats", "--output-format", "csv"] + ["--cache-id", Print(cacheId)]
      + (if coreId == -1 then [] else ["--core-id", Print(coreId)])
    case SetCacheMode(cacheId, mode) =>
      ["casadm", "--set-cache-mode"] + ["--cache-id", Print(cacheId)] + ["--cache-mode", mode]
  }

  lemma {:induction false} ArgsAppend(a: seq<Item>, b: seq<Item>)
    ensures Args(a + b) == Args(a) + Args(b)
  {
    if |a| == 0 {
      assert a + b == b;
    } else {
      assert (a + b)[0] == a[0] && (a + b)[1..] == a[1..] + b;
      ArgsAppend(a[1..], b);
    }
  }

  lemma ArgsOne(it: Item)
    ensures Args([it]) == ItemArgs(it)
  {
    assert [it][1..] == [];
  }

  lemma OptionalArgs(k: Keyword, text: Option<string>)
    ensures Args(Optional(k, text)) == Flag(Spelling(k), text)
  {
    if text.Some? {
      ArgsOne(Param(k, text.value));
    }
  }

  lemma LastArgs(a: Arguments)
    ensures Args(Optional(CoreIdParam, a.coreId) + (Optional(ModeParam, a.mode) + Optional(LineSizeParam, a.lineSize))) ==
            Flag(Spelling(CoreIdParam), a.coreId) + (Flag(Spelling(ModeParam), a.mode) + Flag(Spelling(LineSizeParam), a.lineSize))
  {
    OptionalArgs(CoreIdParam, a.coreId);
    OptionalArgs(ModeParam, a.mode);
    OptionalArgs(LineSizeParam, a.lineSize);
    ArgsAppend(Optional(ModeParam, a.mode), Optional(LineSizeParam, a.lineSize));
    ArgsAppend(Optional(CoreIdParam, a.coreId), Optional(ModeParam, a.mode) + Optional(LineSizeParam, a.lineSize));
  }

  function ParamArgs(a: Arguments): seq<string> {
    Flag(Spelling(CacheDevice), a.cacheDevice) + (Flag(Spelling(CacheIdParam), a.cacheId) + (Flag(Spelling(CoreDevice), a.coreDevice)
    + (Flag(Spelling(CoreIdParam), a.coreId) + (Flag(Spelling(ModeParam), a.mode) + Flag(Spelling(LineSizeParam), a.lineSize)))))
  }

  lemma ParamsVector(a: Arguments)
    ensures Args(Params(PARAM_ORDER, a)) == ParamArgs(a)
  {
    ParamsForm(a);
    var last := Optional(CoreIdParam, a.coreId) + (Optional(ModeParam, a.mode) + Optional(LineSizeParam, a.lineSize));
    LastArgs(a);
    OptionalArgs(CacheDevice, a.cacheDevice);
    OptionalArgs(CacheIdParam, a.cacheId);
    OptionalArgs(CoreDevice, a.coreDevice);
    ArgsAppend(Optional(CoreDevice, a.coreDevice), last);
    ArgsAppend(Optional(CacheIdParam, a.cacheId), Optional(CoreDevice, a.coreDevice) + last);
    ArgsAppend(Optional(CacheDevice, a.cacheDevice), Optional(CacheIdParam, a.cacheId) + (Optional(CoreDevice, a.coreDevice) + last));
  }

  /** The words of an operation that come before its parameters. */
  function Words(op: Keyword): seq<string> {
    match op
    case StartOp => ["casadm", "--start-cache", "--force"]
    case StopOp => ["casadm", "--stop-cache"]
    case AddCoreOp => ["casadm", "--add-core"]
    case RemoveCoreOp => ["casadm", "--remove-core"]
    case ListOp => ["casadm", "--list-caches", "--by-id-path", "--output-format", "csv"]
    case StatsOp => ["casadm", "--stats", "--output-format", "csv"]
    case _ => ["casadm", "--set-cache-mode"]
  }

  lemma HeadVector(op: Keyword, tail: seq<Item>)
    requires op != OutputCsv
    ensures Args([Switch(Bin), Switch(op)] + tail) == [Spelling(Bin), Spelling(op)] + Args(tail)
  {
    ArgsAppend([Switch(Bin), Switch(op)], tail);
    ArgsAppend([Switch(Bin)], [Switch(op)]);
    ArgsOne(Switch(Bin));
    ArgsOne(Switch(op));
    assert [Switch(Bin)] + [Switch(op)] == [Switch(Bin), Switch(op)];
  }

  lemma TailVector()
    ensures Args([Switch(Force)]) == ["--force"] && Args([Switch(OutputCsv)]) == ["--output-format", "csv"]
    ensures Args([Switch(ByIdPath), Switch(OutputCsv)]) == ["--by-id-path", "--output-format", "csv"]
  {
    ArgsOne(Switch(Force));
    ArgsOne(Switch(OutputCsv));
    ArgsOne(Switch(ByIdPath));
    ArgsAppend([Switch(ByIdPath)], [Switch(OutputCsv)]);
    assert [Switch(ByIdPath)] + [Switch(OutputCsv)] == [Switch(ByIdPath), Switch(OutputCsv)];
  }

  lemma SwitchTail(op: Keyword) returns (tail: seq<Item>)
    requires op in {StartOp, StopOp, AddCoreOp, RemoveCoreOp, ListOp, StatsOp, SetModeOp}
    ensures Switches(op) == [Switch(Bin), Switch(op)] + tail
    ensures Words(op) == [Spelling(Bin), Spelling(op)] + Args(tail)
  {
    TailVector();
    match op
    case StartOp => tail := [Switch(Force)];
    case ListOp => tail := [Switch(ByIdPath), Switch(OutputCsv)];
    case StatsOp => tail := [Switch(OutputCsv)];
    case _ => tail := [];
  }

  lemma SwitchVector(op: Keyword)
    requires op in {StartOp, StopOp, AddCoreOp, RemoveCoreOp, ListOp, StatsOp, SetModeOp}
    ensures Args(Switches(op)) == Words(op)
  {
    var tail := SwitchTail(op);
    HeadVector(op, tail);
  }

  lemma VectorParts(c: Command)
    ensures Argv(c) == Words(Operation(c)) + ParamArgs(ArgumentsOf(c))
  {
    ArgsAppend(Switches(Operation(c)), Params(PARAM_ORDER, ArgumentsOf(c)));
    SwitchVector(Operation(c));
    ParamsVector(ArgumentsOf(c));
  }

  /** Leaving out what is empty. */
  lemma SixParts(w: seq<string>, a: seq<string>, b: seq<string>, c: seq<string>, d: seq<string>, e: seq<string>, f: seq<string>)
    ensures w + (a + (b + (c + (d + (e + f))))) == w + a + b + c + d + e + f
  {
  }

  lemma Spellings()
    ensures Spelling(CacheDevice) == "--cache-device" && Spelling(CoreDevice) == "--core-device"
    ensures Spelling(CacheIdParam) == "--cache-id" && Spelling(CoreIdParam) == "--core-id"
    ensures Spelling(ModeParam) == "--cache-mode" && Spelling(LineSizeParam) == "--cache-line-size"
  {
  }

  function Joined(w: seq<string>, a: Arguments): seq<string> {
    w + Flag("--cache-device", a.cacheDevice) + Flag("--cache-id", a.cacheId) + Flag("--core-device", a.coreDevice)
    + Flag("--core-id", a.coreId) + Flag("--cache-mode", a.mode) + Flag("--cache-line-size", a.lineSize)
  }

  lemma ParamArgsJoined(w: seq<string>, a: Arguments)
    ensures w + ParamArgs(a) == Joined(w, a)
  {
    Spellings();
    SixParts(w, Flag("--cache-device", a.cacheDevice), Flag("--cache-id", a.cacheId), Flag("--core-device", a.coreDevice),
             Flag("--core-id", a.coreId), Flag("--cache-mode", a.mode), Flag("--cache-line-size", a.lineSize));
  }

  lemma NoFlag(w: seq<string>)
    ensures w + [] == w
  {
  }

  lemma StartMeans(path: string, mode: string, lineSize: GoInt, cacheId: GoInt)
    ensures var c := StartCache(path, mode, lineSize, cacheId); Joined(Words(StartOp), ArgumentsOf(c)) == Vector(c)
  {
    var a := ArgumentsOf(StartCache(path, mode, lineSize, cacheId));
    var w := Words(StartOp) + Flag("--cache-device", a.cacheDevice) + Flag("--cache-id", a.cacheId);
    NoFlag(w);
  }

  lemma AddMeans(cacheId: GoInt, path: string, coreId: GoInt)
    ensures var c := AddCore(cacheId, path, coreId); Joined(Words(AddCoreOp), ArgumentsOf(c)) == Vector(c)
  {
    var a := ArgumentsOf(AddCore(cacheId, path, coreId));
    NoFlag(Words(AddCoreOp));
    NoFlag(Words(AddCoreOp) + Flag("--cache-id", a.cacheId) + Flag("--core-device", a.coreDevice) + Flag("--core-id", a.coreId));
  }

  /** The commands without a path, each with at most an id, a core id and a mode. */
  lemma NumbersMean(w: seq<string>, a: Arguments)
    requires a.cacheDevice == None && a.coreDevice == None && a.lineSize == None
    ensures Joined(w, a) == w + Flag("--cache-id", a.cacheId) + Flag("--core-id", a.coreId) + Flag("--cache-mode", a.mode)
  {
    NoFlag(w);
    NoFlag(w + Flag("--cache-id", a.cacheId));
    NoFlag(w + Flag("--cache-id", a.cacheId) + Flag("--core-id", a.coreId) + Flag("--cache-mode", a.mode));
  }

  lemma OtherMeans(c: Command)
    requires !c.StartCache? && !c.AddCore?
    ensures Joined(Words(Operation(c)), ArgumentsOf(c)) == Vector(c)
  {
    var a, w := ArgumentsOf(c), Words(Operation(c));
    NumbersMean(w, a);
    NoFlag(w);
    NoFlag(w + Flag("--cache-id", a.cacheId));
    NoFlag(w + Flag("--cache-id", a.cacheId) + Flag("--core-id", a.coreId));
  }

  lemma VectorMeans(c: Command)
    ensures Words(Operation(c)) + ParamArgs(ArgumentsOf(c)) == Vector(c)
  {
    ParamArgsJoined(Words(Operation(c)), ArgumentsOf(c));
    match c
    case StartCache(path, mode, lineSize, cacheId) => StartMeans(path, mode, lineSize, cacheId);
    case AddCore(cacheId, path, coreId) => AddMeans(cacheId, path, coreId);
    case _ => OtherMeans(c);
  }

  /** A job for a command gets exactly the intended arguments, csv and force flags included, if and only if path and mode
      hold no space. */
  lemma JobArguments(c: Command)
    ensures Split(Line(c), ' ') == Vector(c) <==> SpaceFree(c)
  {
    ArgvExactly(c);
    VectorParts(c);
    VectorMeans(c);
  }

  // ---- Job names ----

  /** What a command without a path leaves in its job name. */
  function Suffix(c: Command): string
    requires Numbered(c)
  {
    match c
    case StopCache(id) => "-t" + ("-i" + Print(id))
    case RemoveCore(id, coreId) => "-r" + ("-i" + Print(id)) + ("-j" + Print(coreId))
    case ListCaches => "-l"
    case Stats(id, coreId) => "-p" + ("-i" + Print(id)) + if coreId == -1 then "" else "-j" + Print(coreId)
    case SetCacheMode(id, mode) => "-q" + ("-i" + Print(id)) + ("-c" + mode)
  }

  function Dash(letter: char, text: Option<string>): string {
    if text.Some? then ['-', letter] + text.value else ""
  }

  lemma {:induction false} PiecesAppend(a: seq<Item>, b: seq<Item>)
    requires forall it :: it in a ==> it.Param?
    requires forall it :: it in b ==> it.Param?
    ensures forall it :: it in a + b ==> it.Param?
    ensures Dashed(Pieces(a + b)) == Dashed(Pieces(a)) + Dashed(Pieces(b))
  {
    if |a| == 0 {
      assert a + b == b;
    } else {
      var ab := a + b;
      assert ab[0] == a[0] && ab[1..] == a[1..] + b;
      PiecesAppend(a[1..], b);
      DashedCons(Piece(a[0]), Pieces(ab[1..]));
      DashedCons(Piece(a[0]), Pieces(a[1..]));
    }
  }

  lemma DashedOptional(k: Keyword, text: Option<string>)
    ensures Dashed(Pieces(Optional(k, text))) == Dash(Letter(k), text)
  {
    if text.Some? {
      var items := [Param(k, text.value)];
      assert items[1..] == [];
      assert Pieces(items) == [Piece(items[0])];
      DashedCons(Piece(items[0]), []);
    }
  }

  lemma ThreeItems(i: seq<Item>, j: seq<Item>, m: seq<Item>)
    ensures [] + (i + ([] + (j + (m + [])))) == i + (j + m)
  {
  }

  lemma NumericParams(a: Arguments)
    requires a.cacheDevice == None && a.coreDevice == None && a.lineSize == None
    ensures Params(PARAM_ORDER, a) ==
            Optional(CacheIdParam, a.cacheId) + (Optional(CoreIdParam, a.coreId) + Optional(ModeParam, a.mode))
  {
    ParamsForm(a);
    ThreeItems(Optional(CacheIdParam, a.cacheId), Optional(CoreIdParam, a.coreId), Optional(ModeParam, a.mode));
  }

  lemma DashedThree(i: seq<Item>, j: seq<Item>, m: seq<Item>, x: string, y: string, z: string)
    requires forall it :: it in i ==> it.Param?
    requires forall it :: it in j ==> it.Param?
    requires forall it :: it in m ==> it.Param?
    requires Dashed(Pieces(i)) == x && Dashed(Pieces(j)) == y && Dashed(Pieces(m)) == z
    ensures forall it :: it in i + (j + m) ==> it.Param?
    ensures Dashed(Pieces(i + (j + m))) == x + y + z
  {
    PiecesAppend(j, m);
    DashedTwo(i, j + m, x, y + z);
    Associates(x, y, z);
  }

  lemma DashedTwo(i: seq<Item>, rest: seq<Item>, x: string, y: string)
    requires forall it :: it in i ==> it.Param?
    requires forall it :: it in rest ==> it.Param?
    requires Dashed(Pieces(i)) == x && Dashed(Pieces(rest)) == y
    ensures forall it :: it in i + rest ==> it.Param?
    ensures Dashed(Pieces(i + rest)) == x + y
  {
    PiecesAppend(i, rest);
  }

  lemma Associates(x: string, y: string, z: string)
    ensures x + (y + z) == x + y + z
  {
  }

  /** The parameters of a command without paths and line size. */
  lemma DashedParams(a: Arguments)
    requires a.cacheDevice == None && a.coreDevice == None && a.lineSize == None
    ensures forall it :: it in Params(PARAM_ORDER, a) ==> it.Param?
    ensures Dashed(Pieces(Params(PARAM_ORDER, a))) == Dash('i', a.cacheId) + Dash('j', a.coreId) + Dash('c', a.mode)
  {
    NumericParams(a);
    DashedOptional(CacheIdParam, a.cacheId);
    DashedOptional(CoreIdParam, a.coreId);
    DashedOptional(ModeParam, a.mode);
    DashedThree(Optional(CacheIdParam, a.cacheId), Optional(CoreIdParam, a.coreId), Optional(ModeParam, a.mode),
                Dash('i', a.cacheId), Dash('j', a.coreId), Dash('c', a.mode));
  }

  lemma FourParts(w: string, i: string, j: string, m: string)
    ensures w + (i + j + m) == w + i + j + m && w + i + "" + m == w + i + m && w + i + j + "" == w + i + j
  {
  }

  lemma DashMeans(text: string)
    ensures Dash('i', Some(text)) == "-i" + text && Dash('j', Some(text)) == "-j" + text && Dash('c', Some(text)) == "-c" + text
  {
  }

  lemma SuffixParts(c: Command)
    requires Numbered(c)
    ensures var a := ArgumentsOf(c);
            ['-', OperationLetter(Operation(c))] + (Dash('i', a.cacheId) + Dash('j', a.coreId) + Dash('c', a.mode)) == Suffix(c)
  {
    var a, w := ArgumentsOf(c), ['-', OperationLetter(Operation(c))];
    var i, j, m := Dash('i', a.cacheId), Dash('j', a.coreId), Dash('c', a.mode);
    FourParts(w, i, j, m);
    if a.cacheId.Some? {
      DashMeans(a.cacheId.value);
    }
    if a.coreId.Some? {
      DashMeans(a.coreId.value);
    }
    if a.mode.Some? {
      DashMeans(a.mode.value);
    }
  }

  lemma SuffixMeans(c: Command)
    requires Numbered(c)
    ensures Dashed(NamePieces(c)) == Suffix(c)
  {
    var a := ArgumentsOf(c);
    DashedParams(a);
    Prefixed(OperationLetter(Operation(c)), ParamsOf(c), Dash('i', a.cacheId) + Dash('j', a.coreId) + Dash('c', a.mode));
    SuffixParts(c);
  }

  lemma Prefixed(letter: char, params: seq<Item>, tail: string)
    requires forall it :: it in params ==> it.Param?
    requires Dashed(Pieces(params)) == tail
    ensures Dashed([[letter]] + Pieces(params)) == ['-', letter] + tail
  {
    DashedCons([letter], Pieces(params));
    assert ['-'] + [letter] == ['-', letter];
  }

  /** The job name of a command without a path, unless it is truncated: the first part of the node's name in lower case,
      then the operation and its numbers, whatever order the map is visited in. */
  lemma JobNameMeans(nodeId: string, c: Command, order: seq<Keyword>)
    requires Numbered(c) && VisitsAll(order) && |Lower(Split(nodeId, '.')[0]) + Suffix(c)| <= 63
    ensures Name(nodeId, Line(c), order) == Lower(Split(nodeId, '.')[0]) + Suffix(c)
  {
    NumberedText(c, order);
    SuffixMeans(c);
  }

  lemma {:induction false} TrimEndDrops(s: string)
    ensures forall i :: |TrimEnd(s)| <= i < |s| ==> s[i] == '-' || s[i] == '.'
  {
    if s != "" && (s[|s| - 1] == '-' || s[|s| - 1] == '.') {
      TrimEndDrops(s[..|s| - 1]);
    }
  }

  /** A longer name is cut at 63 characters and loses exactly the dashes and dots it would then end in. */
  lemma TruncatedName(nodeId: string, cmd: string, order: seq<Keyword>)
    requires |FullName(nodeId, cmd, order)| > 63
    ensures var full, name := FullName(nodeId, cmd, order), Name(nodeId, cmd, order);
            && |name| <= 63 && name == full[..|name|]
            && (forall i :: |name| <= i < 63 ==> full[i] == '-' || full[i] == '.')
            && (name != "" ==> name[|name| - 1] != '-' && name[|name| - 1] != '.')
  {
    CutAndTrimmed(FullName(nodeId, cmd, order));
  }

  lemma CutAndTrimmed(full: string)
    requires |full| > 63
    ensures var name := TrimEnd(full[..63]);
            && |name| <= 63 && name == full[..|name|]
            && (forall i :: |name| <= i < 63 ==> full[i] == '-' || full[i] == '.')
            && (name != "" ==> name[|name| - 1] != '-' && name[|name| - 1] != '.')
  {
    var cut := full[..63];
    TrimEndDrops(cut);
    var name := TrimEnd(cut);
    assert name <= cut;
    assert forall i :: |name| <= i < 63 ==> full[i] == cut[i];
  }

  /** The directory that the compressor drops is the one the node plugin puts its links in. */
  lemma LinkCompressed(volId: string)
    ensures Tail(NodePlugin.ByIdPath(volId)) == ['/'] + volId
  {
    var dir, path := "/dev/disk/by-id/opencas-csi", NodePlugin.ByIdPath(volId);
    assert path == dir + (['/'] + volId);
    assert path[..27] == dir && path[27..] == ['/'] + volId;
  }
}
