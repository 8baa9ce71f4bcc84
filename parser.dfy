/** process_input: a line-by-line state machine over the transcript. Its state
    is the working-directory stack and the tree built so far. */
module Parser {
  import opened Results
  import opened Tree
  import opened Text
  import opened Paths

  /** What a transcript line says, by its space-separated tokens. */
  datatype Line =
    | CdUp                          // `$ cd ..`
    | CdRoot                        // `$ cd /`
    | CdInto(name: string)          // `$ cd <name>`
    | List                          // `$ ls`
    | DirEntry(name: string)        // `dir <name>`
    | FileEntry(size: U64, name: string)  // `<size> <name>`
    | Other                         // any other line with two or more tokens

  /** The classification the source makes, in its order: the first two tokens
      must exist; `$` starts a command (`cd` needs a third token, a command other
      than `cd` and `ls` is an error); then `dir`; then a number; else nothing.
      A missing token and an unknown command are the only errors, and every name
      read from a line is a single token. */
  function ClassifyLine(line: string): (r: Result<Line>)
    ensures r.Err? ==> r.error == MissingToken || r.error.InvalidCommand?
    ensures r.Ok? ==> |Split(line)| >= 2
    ensures r.Ok? && r.value.CdInto? ==> r.value.name != ".." && r.value.name != "/" && ' ' !in r.value.name
    ensures r.Ok? && (r.value.DirEntry? || r.value.FileEntry?) ==> ' ' !in r.value.name
  {
    var t := Split(line);
    if |t| < 2 then Err(MissingToken)
    else if t[0] == "$" then
      if t[1] == "cd" then
        if |t| < 3 then Err(MissingToken)
        else if t[2] == ".." then Ok(CdUp)
        else if t[2] == "/" then Ok(CdRoot)
        else Ok(CdInto(t[2]))
      else if t[1] == "ls" then Ok(List)
      else Err(InvalidCommand(t[1]))
    else if t[0] == "dir" then Ok(DirEntry(t[1]))
    else
      match ParseU64(t[0])
      case Some(size) => Ok(FileEntry(size, t[1]))
      case None => Ok(Other)
  }

  /** The state between two lines: the working-directory stack and the tree. */
  datatype Session = Session(cwd: seq<string>, root: Item)

  /** Before the first line: the stack holds the root marker, the tree is an
      empty directory named `/`. */
  const Initial := Session(["/"], Directory("/", []))

  /** The stack after `cd ..`: one entry fewer, or still empty (popping an
      empty `Vec` does nothing). */
  function Pop(cwd: seq<string>): (r: seq<string>)
    ensures cwd != [] ==> r + [cwd[|cwd| - 1]] == cwd
    ensures cwd == [] ==> r == []
  {
    if cwd == [] then [] else cwd[..|cwd| - 1]
  }

  /** The session with the tree a successful insertion produced. */
  function Added(s: Session, root: Result<Item>): Result<Session>
  {
    match root
    case Err(e) => Err(e)
    case Ok(r) => Ok(Session(s.cwd, r))
  }

  /** The effect of a classified line, given where the current directory is. */
  function Apply(s: Session, idx: seq<nat>, line: Line): Result<Session>
    requires ValidPath(s.root, idx)
  {
    match line
    case CdUp => Ok(Session(Pop(s.cwd), s.root))
    case CdRoot => Ok(s)
    case CdInto(name) => Ok(Session(s.cwd + [name], s.root))
    case List => Ok(s)
    case DirEntry(name) => Added(s, AddAt(s.root, idx, Directory(name, [])))
    case FileEntry(size, name) => Added(s, AddAt(s.root, idx, File(size, name)))
    case Other => Ok(s)
  }

  /** One iteration of the source's loop: the current directory is resolved
      first, for every line, and only then is the line read. */
  function Step(s: Session, line: string): Result<Session>
  {
    match Resolve(s.root, s.cwd)
    case Err(e) => Err(e)
    case Ok(idx) =>
      match ClassifyLine(line)
      case Err(e) => Err(e)
      case Ok(l) => Apply(s, idx, l)
  }

  /** The state after the given lines, or the first error. */
  function Run(lines: seq<string>): Result<Session>
    decreases |lines|
  {
    if lines == [] then Ok(Initial)
    else
      match Run(lines[..|lines| - 1])
      case Err(e) => Err(e)
      case Ok(s) => Step(s, lines[|lines| - 1])
  }

  /** The tree a whole transcript builds; its size is the total of the file
      sizes the listing lines declare. */
  function Process(input: string): (r: Result<Item>)
    ensures r.Ok? ==> Size(r.value) == DeclaredTotal(Lines(input))
  {
    match Run(Lines(input))
    case Err(e) => Err(e)
    case Ok(s) =>
      RunSizeIsDeclaredTotal(Lines(input));
      Ok(s.root)
  }

  /** A line keeps the stack, pops it or pushes one name onto it, and a line
      that moves the working directory leaves the tree alone. */
  lemma StepShape(s: Session, line: string)
    requires Step(s, line).Ok?
    ensures var t := Step(s, line).value;
      || t.cwd == s.cwd || t.cwd == Pop(s.cwd)
      || (|t.cwd| == |s.cwd| + 1 && t.cwd[..|s.cwd|] == s.cwd)
    ensures var t := Step(s, line).value;
      t.cwd != s.cwd ==> t.root == s.root
  {
  }

  /** Each line pushes at most one name onto the stack. */
  lemma {:induction false} RunStackBound(lines: seq<string>)
    requires Run(lines).Ok?
    ensures |Run(lines).value.cwd| <= |lines| + 1
    decreases |lines|
  {
    if lines != [] {
      var front := lines[..|lines| - 1];
      RunStackBound(front);
      StepShape(Run(front).value, lines[|lines| - 1]);
    }
  }

  /** Once a line fails, the run fails with that error. */
  lemma {:induction false} RunStopsAtError(lines: seq<string>, k: nat, e: Error)
    requires k <= |lines| && Run(lines[..k]) == Err(e)
    ensures Run(lines) == Err(e)
    decreases |lines| - k
  {
    if k < |lines| {
      assert lines[..k + 1][..k] == lines[..k];
      RunStopsAtError(lines, k + 1, e);
    } else {
      assert lines[..k] == lines;
    }
  }

  /** process_input: the source's loop, with the working directory resolved
      at the top of every iteration; the body of one iteration is ProcessLine. */
  method ProcessInput(input: string) returns (r: Result<Item>)
    ensures r == Process(input)
  {
    var root := Directory("/", []);
    var cwd: seq<string> := ["/"];
    var lines := Lines(input);
    for k := 0 to |lines|
      invariant Run(lines[..k]) == Ok(Session(cwd, root))
    {
      assert lines[..k + 1][..k] == lines[..k];
      assert Run(lines[..k + 1]) == Step(Session(cwd, root), lines[k]);
      var next := ProcessLine(cwd, root, lines[k]);
      if next.Err? {
        RunStopsAtError(lines, k + 1, next.error);
        return Err(next.error);
      }
      cwd, root := next.value.cwd, next.value.root;
    }
    assert lines[..|lines|] == lines;
    r := Ok(root);
  }

  /** One iteration of process_input's loop: resolve the working directory,
      split the line, then act on its first tokens or fail. */
  method ProcessLine(cwd: seq<string>, root: Item, line: string) returns (r: Result<Session>)
    ensures r == Step(Session(cwd, root), line)
  {
    var current := GetDirFromPath(cwd, root);
    if current.Err? {
      return Err(current.error);
    }
    var idx := current.value;
    var before := Session(cwd, root);
    assert Step(before, line) == match ClassifyLine(line) { case Err(e) => Err(e) case Ok(l) => Apply(before, idx, l) };
    var tokens := Split(line);
    if |tokens| < 2 {
      return Err(MissingToken);
    }
    var first, second := tokens[0], tokens[1];
    if first == "$" {
      var command := second;
      if command == "cd" {
        if |tokens| < 3 {
          return Err(MissingToken);
        }
        var move := tokens[2];
        if move == ".." {
          assert ClassifyLine(line) == Ok(CdUp);
          return Ok(Session(Pop(cwd), root));
        }
        if move == "/" {
          assert ClassifyLine(line) == Ok(CdRoot);
          return Ok(before);
        }
        assert ClassifyLine(line) == Ok(CdInto(move));
        return Ok(Session(cwd + [move], root));
      } else if command == "ls" {
        assert ClassifyLine(line) == Ok(List);
        return Ok(before);
      } else {
        return Err(InvalidCommand(command));
      }
    }
    if first == "dir" {
      assert ClassifyLine(line) == Ok(DirEntry(second));
      var added := AddAt(root, idx, Directory(second, []));
      if added.Err? {
        return Err(added.error);
      }
      return Ok(Session(cwd, added.value));
    }
    match ParseU64(first) {
      case Some(size) =>
        assert ClassifyLine(line) == Ok(FileEntry(size, second));
        var added := AddAt(root, idx, File(size, second));
        if added.Err? {
          return Err(added.error);
        }
        return Ok(Session(cwd, added.value));
      case None =>
        assert ClassifyLine(line) == Ok(Other);
        return Ok(before);
    }
  }

  /** `$ cd ..` pops one entry, `$ cd /` changes nothing, `$ cd <name>` pushes
      the name; the tree is untouched. */
  lemma StepCd(s: Session, name: string)
    requires Resolve(s.root, s.cwd).Ok?
    requires ' ' !in name
    ensures Step(s, "$ cd " + name) ==
      Ok(if name == ".." then Session(Pop(s.cwd), s.root)
         else if name == "/" then s
         else Session(s.cwd + [name], s.root))
  {
    var ws := ["$", "cd", name];
    assert ws[1..] == ["cd", name] && ws[1..][1..] == [name];
    assert JoinOn(ws[1..], ' ') == "cd" + " " + name;
    assert "$ cd " + name == "$" + " " + ("cd" + " " + name);
    SplitJoinOn(ws, ' ');
  }

  /** `$ ls`, whatever follows it on the line, changes nothing. */
  lemma StepLs(s: Session, line: string)
    requires Resolve(s.root, s.cwd).Ok?
    requires |Split(line)| >= 2 && Split(line)[0] == "$" && Split(line)[1] == "ls"
    ensures Step(s, line) == Ok(s)
  {
  }

  /** A command other than `cd` and `ls`, with or without arguments, is an
      error naming it. */
  lemma StepUnknownCommand(s: Session, line: string)
    requires Resolve(s.root, s.cwd).Ok?
    requires |Split(line)| >= 2 && Split(line)[0] == "$"
    requires Split(line)[1] != "cd" && Split(line)[1] != "ls"
    ensures Step(s, line) == Err(InvalidCommand(Split(line)[1]))
  {
  }

  /** `$ cd` without a third token is an error. */
  lemma StepCdWithoutName(s: Session, line: string)
    requires Resolve(s.root, s.cwd).Ok?
    requires |Split(line)| == 2 && Split(line)[0] == "$" && Split(line)[1] == "cd"
    ensures Step(s, line) == Err(MissingToken)
  {
  }

  /** A line without a space has no second token: an error. */
  lemma StepSingleToken(s: Session, line: string)
    requires Resolve(s.root, s.cwd).Ok?
    requires ' ' !in line
    ensures Step(s, line) == Err(MissingToken)
  {
    SplitJoinOn([line], ' ');
  }

  /** Whatever the line, a working directory that does not resolve fails
      first. */
  lemma StepUnresolved(s: Session, line: string)
    requires Resolve(s.root, s.cwd).Err?
    ensures Step(s, line) == Err(Resolve(s.root, s.cwd).error)
  {
  }

  /** `dir <name>` appends an empty directory to the current directory and
      changes nothing else in the tree; the stack and the total size stay as
      they were. */
  lemma StepDir(s: Session, name: string, idx: seq<nat>)
    requires s.root.Directory? && Resolve(s.root, s.cwd) == Ok(idx)
    requires ' ' !in name
    ensures var r := Step(s, "dir " + name);
      && r.Ok? && r.value.cwd == s.cwd && r.value.root.Directory? && r.value.root.name == s.root.name
      && ValidPath(r.value.root, idx)
      && At(r.value.root, idx).items == At(s.root, idx).items + [Directory(name, [])]
      && Inserted(s.root, r.value.root, idx, Directory(name, []))
      && Size(r.value.root) == Size(s.root)
  {
    ClassifyDirLine(name);
    SizeBase(name, 0);
    AddAtInserts(s.root, idx, Directory(name, []));
    var added := AddItem(At(s.root, idx), Directory(name, [])).value;
    assert added.items == At(s.root, idx).items + [Directory(name, [])];
  }

  /** `<size> <name>` appends a file to the current directory, changes nothing
      else in the tree and grows the total size by exactly that size. */
  lemma StepFile(s: Session, size: U64, name: string, idx: seq<nat>)
    requires s.root.Directory? && Resolve(s.root, s.cwd) == Ok(idx)
    requires ' ' !in name
    ensures var r := Step(s, NatToString(size) + " " + name);
      && r.Ok? && r.value.cwd == s.cwd && r.value.root.Directory? && r.value.root.name == s.root.name
      && ValidPath(r.value.root, idx)
      && At(r.value.root, idx).items == At(s.root, idx).items + [File(size, name)]
      && Inserted(s.root, r.value.root, idx, File(size, name))
      && Size(r.value.root) == Size(s.root) + size
  {
    ClassifyFileLine(size, name);
    AddAtInserts(s.root, idx, File(size, name));
    var added := AddItem(At(s.root, idx), File(size, name)).value;
    assert added.items == At(s.root, idx).items + [File(size, name)];
  }

  /** The line `dir <name>` is a directory entry. */
  lemma ClassifyDirLine(name: string)
    requires ' ' !in name
    ensures ClassifyLine("dir " + name) == Ok(DirEntry(name))
  {
    SplitTwo("dir", name);
    assert "dir" + " " + name == "dir " + name;
  }

  /** The line `<size> <name>` is a file entry. */
  lemma ClassifyFileLine(size: U64, name: string)
    requires ' ' !in name
    ensures ClassifyLine(NatToString(size) + " " + name) == Ok(FileEntry(size, name))
  {
    var digits := NatToString(size);
    NoSpaceInDigits(digits);
    SplitTwo(digits, name);
    ParseNatToString(size);
    assert digits != "$" && digits != "dir" by {
      assert IsDigit(digits[0]);
    }
  }

  lemma NoSpaceInDigits(s: string)
    requires AllDigits(s)
    ensures ' ' !in s
  {
  }

  /** A line of two or more tokens that is not a command, not `dir` and does not
      start with a number leaves the session as it was. */
  lemma StepIgnored(s: Session, line: string)
    requires Resolve(s.root, s.cwd).Ok?
    requires |Split(line)| >= 2
    requires Split(line)[0] != "$" && Split(line)[0] != "dir" && ParseU64(Split(line)[0]).None?
    ensures Step(s, line) == Ok(s)
  {
  }

  /** Each step keeps the root a directory named `/`, and never tries to add
      to a file: the working directory always resolves to a directory. */
  lemma StepKeepsRoot(s: Session, line: string)
    requires s.root.Directory? && s.root.name == "/"
    ensures Step(s, line).Ok? ==> Step(s, line).value.root.Directory? && Step(s, line).value.root.name == "/"
    ensures Step(s, line).Err? ==> Step(s, line).error != CannotAddItemToFile
  {
  }

  /** The tree under construction is always a directory named `/`, and no run
      fails by adding to a file. */
  lemma {:induction false} RunKeepsRoot(lines: seq<string>)
    ensures Run(lines).Ok? ==> Run(lines).value.root.Directory? && Run(lines).value.root.name == "/"
    ensures Run(lines).Err? ==> Run(lines).error != CannotAddItemToFile
    decreases |lines|
  {
    if lines != [] {
      RunKeepsRoot(lines[..|lines| - 1]);
      match Run(lines[..|lines| - 1])
      case Err(_) =>
      case Ok(s) => StepKeepsRoot(s, lines[|lines| - 1]);
    }
  }

  /** What a built tree is: a directory named `/`. */
  lemma ProcessBuildsRoot(input: string)
    ensures Process(input).Ok? ==> Process(input).value.Directory? && Process(input).value.name == "/"
    ensures Process(input).Err? ==> Process(input).error != CannotAddItemToFile
  {
    RunKeepsRoot(Lines(input));
  }

  /** The size a file line declares, or zero for any other line. */
  function DeclaredSize(line: string): nat
  {
    match ClassifyLine(line)
    case Ok(FileEntry(size, _)) => size
    case _ => 0
  }

  /** The total of the sizes the file lines declare. */
  function DeclaredTotal(lines: seq<string>): nat
    decreases |lines|
  {
    if lines == [] then 0
    else DeclaredTotal(lines[..|lines| - 1]) + DeclaredSize(lines[|lines| - 1])
  }

  lemma StepSize(s: Session, line: string)
    requires Step(s, line).Ok?
    ensures Size(Step(s, line).value.root) == Size(s.root) + DeclaredSize(line)
  {
    match ClassifyLine(line)
    case Ok(DirEntry(name)) => SizeBase(name, 0);
    case _ =>
  }

  /** A transcript that parses builds a tree whose size is the total of the
      file sizes its listing lines declare. */
  lemma {:induction false} RunSizeIsDeclaredTotal(lines: seq<string>)
    requires Run(lines).Ok?
    ensures Size(Run(lines).value.root) == DeclaredTotal(lines)
    decreases |lines|
  {
    if lines != [] {
      var front := lines[..|lines| - 1];
      RunSizeIsDeclaredTotal(front);
      StepSize(Run(front).value, lines[|lines| - 1]);
    }
  }

  /** A run is the fold of Step: a trace of sessions that each line takes to
      the next one, starting from the initial session, ends where Run does. */
  lemma {:induction false} RunFollowsTrace(lines: seq<string>, sessions: seq<Session>)
    requires |sessions| == |lines| + 1 && sessions[0] == Initial
    requires forall k :: 0 <= k < |lines| ==> Step(sessions[k], lines[k]) == Ok(sessions[k + 1])
    ensures Run(lines) == Ok(sessions[|lines|])
    decreases |lines|
  {
    if lines != [] {
      var n := |lines| - 1;
      var front, earlier := lines[..n], sessions[..n + 1];
      forall k | 0 <= k < n ensures Step(earlier[k], front[k]) == Ok(earlier[k + 1]) {
        assert earlier[k] == sessions[k] && earlier[k + 1] == sessions[k + 1] && front[k] == lines[k];
      }
      RunFollowsTrace(front, earlier);
      assert Run(lines) == Step(sessions[n], lines[n]);
    }
  }

  /** Running one more line of a transcript is one more step. */
  lemma RunExtend(lines: seq<string>, k: nat, s: Session, t: Session)
    requires k < |lines| && Run(lines[..k]) == Ok(s) && Step(s, lines[k]) == Ok(t)
    ensures Run(lines[..k + 1]) == Ok(t)
  {
    assert lines[..k + 1][..k] == lines[..k];
  }

  /** A step, once the working directory is resolved and the line classified. */
  lemma StepClassified(s: Session, line: string, idx: seq<nat>, kind: Line)
    requires Resolve(s.root, s.cwd) == Ok(idx) && ClassifyLine(line) == Ok(kind)
    ensures Step(s, line) == Apply(s, idx, kind)
  {
  }
}
