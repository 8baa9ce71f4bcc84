/** The transcript of the source's own test (`part_one_example`), and the
    tree and answer it leads to. Each line is checked against the session it
    starts from: its tokens, where the working directory resolves, and the
    session the line produces (`LineNN`). `RunPrefixNN` then extends the run
    of the first lines by one line at a time. These lemmas take the lines as
    a parameter equal to `TranscriptLines`, so that the verifier unfolds
    `Run` one line at a time instead of over the whole literal transcript. */
module Example {
  import opened Results
  import opened Tree
  import opened Text
  import opened Paths
  import opened Parser
  import opened Query

  /** The lines of the test input, in order. */
  const TranscriptLines: seq<string> := [
    "$ cd /",
    "$ ls",
    "dir a",
    "14848514 b.txt",
    "8504156 c.dat",
    "dir d",
    "$ cd a",
    "$ ls",
    "dir e",
    "29116 f",
    "2557 g",
    "62596 h.lst",
    "$ cd e",
    "$ ls",
    "584 i",
    "$ cd ..",
    "$ cd ..",
    "$ cd d",
    "$ ls",
    "4060174 j",
    "8033020 d.log",
    "5626152 d.ext",
    "7214296 k"
  ]

  /** The test input: each transcript line followed by a line feed. */
  const ExampleInput: string := Terminated(TranscriptLines)

  const S00: Session := Session(["/"], Directory("/", []))
  const S01: Session := Session(["/"], Directory("/", []))
  const S02: Session := Session(["/"], Directory("/", []))
  const S03: Session := Session(["/"], Directory("/", [Directory("a", [])]))
  const S04: Session := Session(["/"], Directory("/", [Directory("a", []), File(14848514, "b.txt")]))
  const S05: Session := Session(["/"], Directory("/", [Directory("a", []), File(14848514, "b.txt"), File(8504156, "c.dat")]))
  const S06: Session := Session(["/"], Directory("/", [Directory("a", []), File(14848514, "b.txt"), File(8504156, "c.dat"), Directory("d", [])]))
  const S07: Session := Session(["/", "a"], Directory("/", [Directory("a", []), File(14848514, "b.txt"), File(8504156, "c.dat"), Directory("d", [])]))
  const S08: Session := Session(["/", "a"], Directory("/", [Directory("a", []), File(14848514, "b.txt"), File(8504156, "c.dat"), Directory("d", [])]))
  const S09: Session := Session(["/", "a"], Directory("/", [Directory("a", [Directory("e", [])]), File(14848514, "b.txt"), File(8504156, "c.dat"), Directory("d", [])]))
  const S10: Session := Session(["/", "a"], Directory("/", [Directory("a", [Directory("e", []), File(29116, "f")]), File(14848514, "b.txt"), File(8504156, "c.dat"), Directory("d", [])]))
  const S11: Session := Session(["/", "a"], Directory("/", [Directory("a", [Directory("e", []), File(29116, "f"), File(2557, "g")]), File(14848514, "b.txt"), File(8504156, "c.dat"), Directory("d", [])]))
  const S12: Session := Session(["/", "a"], Directory("/", [Directory("a", [Directory("e", []), File(29116, "f"), File(2557, "g"), File(62596, "h.lst")]), File(14848514, "b.txt"), File(8504156, "c.dat"), Directory("d", [])]))
  const S13: Session := Session(["/", "a", "e"], Directory("/", [Directory("a", [Directory("e", []), File(29116, "f"), File(2557, "g"), File(62596, "h.lst")]), File(14848514, "b.txt"), File(8504156, "c.dat"), Directory("d", [])]))
  const S14: Session := Session(["/", "a", "e"], Directory("/", [Directory("a", [Directory("e", []), File(29116, "f"), File(2557, "g"), File(62596, "h.lst")]), File(14848514, "b.txt"), File(8504156, "c.dat"), Directory("d", [])]))
  const S15: Session := Session(["/", "a", "e"], Directory("/", [Directory("a", [Directory("e", [File(584, "i")]), File(29116, "f"), File(2557, "g"), File(62596, "h.lst")]), File(14848514, "b.txt"), File(8504156, "c.dat"), Directory("d", [])]))
  const S16: Session := Session(["/", "a"], Directory("/", [Directory("a", [Directory("e", [File(584, "i")]), File(29116, "f"), File(2557, "g"), File(62596, "h.lst")]), File(14848514, "b.txt"), File(8504156, "c.dat"), Directory("d", [])]))
  const S17: Session := Session(["/"], Directory("/", [Directory("a", [Directory("e", [File(584, "i")]), File(29116, "f"), File(2557, "g"), File(62596, "h.lst")]), File(14848514, "b.txt"), File(8504156, "c.dat"), Directory("d", [])]))
  const S18: Session := Session(["/", "d"], Directory("/", [Directory("a", [Directory("e", [File(584, "i")]), File(29116, "f"), File(2557, "g"), File(62596, "h.lst")]), File(14848514, "b.txt"), File(8504156, "c.dat"), Directory("d", [])]))
  const S19: Session := Session(["/", "d"], Directory("/", [Directory("a", [Directory("e", [File(584, "i")]), File(29116, "f"), File(2557, "g"), File(62596, "h.lst")]), File(14848514, "b.txt"), File(8504156, "c.dat"), Directory("d", [])]))
  const S20: Session := Session(["/", "d"], Directory("/", [Directory("a", [Directory("e", [File(584, "i")]), File(29116, "f"), File(2557, "g"), File(62596, "h.lst")]), File(14848514, "b.txt"), File(8504156, "c.dat"), Directory("d", [File(4060174, "j")])]))
  const S21: Session := Session(["/", "d"], Directory("/", [Directory("a", [Directory("e", [File(584, "i")]), File(29116, "f"), File(2557, "g"), File(62596, "h.lst")]), File(14848514, "b.txt"), File(8504156, "c.dat"), Directory("d", [File(4060174, "j"), File(8033020, "d.log")])]))
  const S22: Session := Session(["/", "d"], Directory("/", [Directory("a", [Directory("e", [File(584, "i")]), File(29116, "f"), File(2557, "g"), File(62596, "h.lst")]), File(14848514, "b.txt"), File(8504156, "c.dat"), Directory("d", [File(4060174, "j"), File(8033020, "d.log"), File(5626152, "d.ext")])]))
  const S23: Session := Session(["/", "d"], Directory("/", [Directory("a", [Directory("e", [File(584, "i")]), File(29116, "f"), File(2557, "g"), File(62596, "h.lst")]), File(14848514, "b.txt"), File(8504156, "c.dat"), Directory("d", [File(4060174, "j"), File(8033020, "d.log"), File(5626152, "d.ext"), File(7214296, "k")])]))

  lemma Classify00()
    ensures ClassifyLine("$ cd /") == Ok(CdRoot)
  {
    SplitThree("$", "cd", "/");
    assert "$" + " " + "cd" + " " + "/" == "$ cd /";
  }

  lemma Apply00()
    ensures Apply(S00, [], CdRoot) == Ok(S01)
  {
    assert S00 == S01;
  }

  lemma Line00(lines: seq<string>)
    requires lines == TranscriptLines
    ensures Step(S00, lines[0]) == Ok(S01)
  {
    assert lines[0] == "$ cd /";
    Classify00();
    Apply00();
    StepClassified(S00, "$ cd /", [], CdRoot);
  }

  lemma RunPrefix00(lines: seq<string>)
    requires lines == TranscriptLines
    ensures Run(lines[..1]) == Ok(S01)
  {
    assert lines[..0] == [] && S00 == Initial;
    Line00(lines);
    RunExtend(lines, 0, S00, S01);
  }

  lemma Line01(lines: seq<string>)
    requires lines == TranscriptLines
    ensures Step(S01, lines[1]) == Ok(S02)
  {
    assert lines[1] == "$ ls";
    SplitTwo("$", "ls");
    assert "$" + " " + "ls" == "$ ls";
    StepLs(S01, "$ ls");
    assert S01 == S02;
  }

  lemma RunPrefix01(lines: seq<string>)
    requires lines == TranscriptLines
    ensures Run(lines[..2]) == Ok(S02)
  {
    RunPrefix00(lines);
    Line01(lines);
    RunExtend(lines, 1, S01, S02);
  }

  lemma Classify02()
    ensures ClassifyLine("dir a") == Ok(DirEntry("a"))
  {
    ClassifyDirLine("a");
    assert "dir " + "a" == "dir a";
  }

  lemma Apply02()
    ensures ValidPath(S02.root, []) && Apply(S02, [], DirEntry("a")) == Ok(S03)
  {
    var c := Directory("a", []);
    var u0 := Directory(S02.root.name, S02.root.items + [c]);
    assert u0 == Directory("/", [Directory("a", [])]);
    assert AddAt(S02.root, [], c) == Ok(u0);
    var e0: seq<nat> := [];
    assert e0 == [];
    assert u0 == S03.root;
  }

  lemma Line02(lines: seq<string>)
    requires lines == TranscriptLines
    ensures Step(S02, lines[2]) == Ok(S03)
  {
    assert lines[2] == "dir a";
    Classify02();
    Apply02();
    StepClassified(S02, "dir a", [], DirEntry("a"));
  }

  lemma RunPrefix02(lines: seq<string>)
    requires lines == TranscriptLines
    ensures Run(lines[..3]) == Ok(S03)
  {
    RunPrefix01(lines);
    Line02(lines);
    RunExtend(lines, 2, S02, S03);
  }

  lemma Digits03()
    ensures NatToString(14848514) == "14848514"
  {
    assert NatToString(1) == "1";
    assert NatToString(14) == "14";
    assert NatToString(148) == "148";
    assert NatToString(1484) == "1484";
    assert NatToString(14848) == "14848";
    assert NatToString(148485) == "148485";
    assert NatToString(1484851) == "1484851";
  }

  lemma Classify03()
    ensures ClassifyLine("14848514 b.txt") == Ok(FileEntry(14848514, "b.txt"))
  {
    Digits03();
    ClassifyFileLine(14848514, "b.txt");
    assert NatToString(14848514) + " " + "b.txt" == "14848514 b.txt";
  }

  lemma Apply03()
    ensures ValidPath(S03.root, []) && Apply(S03, [], FileEntry(14848514, "b.txt")) == Ok(S04)
  {
    var c := File(14848514, "b.txt");
    var u0 := Directory(S03.root.name, S03.root.items + [c]);
    assert u0 == Directory("/", [Directory("a", []), File(14848514, "b.txt")]);
    assert AddAt(S03.root, [], c) == Ok(u0);
    var e0: seq<nat> := [];
    assert e0 == [];
    assert u0 == S04.root;
  }

  lemma Line03(lines: seq<string>)
    requires lines == TranscriptLines
    ensures Step(S03, lines[3]) == Ok(S04)
  {
    assert lines[3] == "14848514 b.txt";
    Classify03();
    Apply03();
    StepClassified(S03, "14848514 b.txt", [], FileEntry(14848514, "b.txt"));
  }

  lemma RunPrefix03(lines: seq<string>)
    requires lines == TranscriptLines
    ensures Run(lines[..4]) == Ok(S04)
  {
    RunPrefix02(lines);
    Line03(lines);
    RunExtend(lines, 3, S03, S04);
  }

  lemma Digits04()
    ensures NatToString(8504156) == "8504156"
  {
    assert NatToString(8) == "8";
    assert NatToString(85) == "85";
    assert NatToString(850) == "850";
    assert NatToString(8504) == "8504";
    assert NatToString(85041) == "85041";
    assert NatToString(850415) == "850415";
  }

  lemma Classify04()
    ensures ClassifyLine("8504156 c.dat") == Ok(FileEntry(8504156, "c.dat"))
  {
    Digits04();
    ClassifyFileLine(8504156, "c.dat");
    assert NatToString(8504156) + " " + "c.dat" == "8504156 c.dat";
  }

  lemma Apply04()
    ensures ValidPath(S04.root, []) && Apply(S04, [], FileEntry(8504156, "c.dat")) == Ok(S05)
  {
    var c := File(8504156, "c.dat");
    var u0 := Directory(S04.root.name, S04.root.items + [c]);
    assert u0 == Directory("/", [Directory("a", []), File(14848514, "b.txt"), File(8504156, "c.dat")]);
    assert AddAt(S04.root, [], c) == Ok(u0);
    var e0: seq<nat> := [];
    assert e0 == [];
    assert u0 == S05.root;
  }

  lemma Line04(lines: seq<string>)
    requires lines == TranscriptLines
    ensures Step(S04, lines[4]) == Ok(S05)
  {
    assert lines[4] == "8504156 c.dat";
    Classify04();
    Apply04();
    StepClassified(S04, "8504156 c.dat", [], FileEntry(8504156, "c.dat"));
  }

  lemma RunPrefix04(lines: seq<string>)
    requires lines == TranscriptLines
    ensures Run(lines[..5]) == Ok(S05)
  {
    RunPrefix03(lines);
    Line04(lines);
    RunExtend(lines, 4, S04, S05);
  }

  lemma Classify05()
    ensures ClassifyLine("dir d") == Ok(DirEntry("d"))
  {
    ClassifyDirLine("d");
    assert "dir " + "d" == "dir d";
  }

  lemma Apply05()
    ensures ValidPath(S05.root, []) && Apply(S05, [], DirEntry("d")) == Ok(S06)
  {
    var c := Directory("d", []);
    var u0 := Directory(S05.root.name, S05.root.items + [c]);
    assert u0 == Directory("/", [Directory("a", []), File(14848514, "b.txt"), File(8504156, "c.dat"), Directory("d", [])]);
    assert AddAt(S05.root, [], c) == Ok(u0);
    var e0: seq<nat> := [];
    assert e0 == [];
    assert u0 == S06.root;
  }

  lemma Line05(lines: seq<string>)
    requires lines == TranscriptLines
    ensures Step(S05, lines[5]) == Ok(S06)
  {
    assert lines[5] == "dir d";
    Classify05();
    Apply05();
    StepClassified(S05, "dir d", [], DirEntry("d"));
  }

  lemma RunPrefix05(lines: seq<string>)
    requires lines == TranscriptLines
    ensures Run(lines[..6]) == Ok(S06)
  {
    RunPrefix04(lines);
    Line05(lines);
    RunExtend(lines, 5, S05, S06);
  }

  lemma Classify06()
    ensures ClassifyLine("$ cd a") == Ok(CdInto("a"))
  {
    SplitThree("$", "cd", "a");
    assert "$" + " " + "cd" + " " + "a" == "$ cd a";
  }

  lemma Apply06()
    ensures Apply(S06, [], CdInto("a")) == Ok(S07)
  {
    assert Session(S06.cwd + ["a"], S06.root) == S07;
  }

  lemma Line06(lines: seq<string>)
    requires lines == TranscriptLines
    ensures Step(S06, lines[6]) == Ok(S07)
  {
    assert lines[6] == "$ cd a";
    Classify06();
    Apply06();
    StepClassified(S06, "$ cd a", [], CdInto("a"));
  }

  lemma RunPrefix06(lines: seq<string>)
    requires lines == TranscriptLines
    ensures Run(lines[..7]) == Ok(S07)
  {
    RunPrefix05(lines);
    Line06(lines);
    RunExtend(lines, 6, S06, S07);
  }

  lemma Resolve07()
    ensures Resolve(S07.root, S07.cwd) == Ok([0])
  {
    var p1: seq<string>, r1: seq<nat> := [], [];
    FindDirAt(S07.root.items, "a", 0);
    ResolveChild(S07.root, "a", p1, 0, r1);
    var p0, r0 := ["a"] + p1, [0] + r1;
    ResolveSkipRoot(S07.root, p0);
    assert S07.cwd == ["/"] + p0 && r0 == [0];
  }

  lemma Line07(lines: seq<string>)
    requires lines == TranscriptLines
    ensures Step(S07, lines[7]) == Ok(S08)
  {
    assert lines[7] == "$ ls";
    Resolve07();
    SplitTwo("$", "ls");
    assert "$" + " " + "ls" == "$ ls";
    StepLs(S07, "$ ls");
    assert S07 == S08;
  }

  lemma RunPrefix07(lines: seq<string>)
    requires lines == TranscriptLines
    ensures Run(lines[..8]) == Ok(S08)
  {
    RunPrefix06(lines);
    Line07(lines);
    RunExtend(lines, 7, S07, S08);
  }

  lemma Classify08()
    ensures ClassifyLine("dir e") == Ok(DirEntry("e"))
  {
    ClassifyDirLine("e");
    assert "dir " + "e" == "dir e";
  }

  lemma Resolve08()
    ensures Resolve(S08.root, S08.cwd) == Ok([0])
  {
    var p1: seq<string>, r1: seq<nat> := [], [];
    FindDirAt(S08.root.items, "a", 0);
    ResolveChild(S08.root, "a", p1, 0, r1);
    var p0, r0 := ["a"] + p1, [0] + r1;
    ResolveSkipRoot(S08.root, p0);
    assert S08.cwd == ["/"] + p0 && r0 == [0];
  }

  lemma Apply08()
    ensures ValidPath(S08.root, [0]) && Apply(S08, [0], DirEntry("e")) == Ok(S09)
  {
    var c := Directory("e", []);
    var u1 := Directory(S08.root.items[0].name, S08.root.items[0].items + [c]);
    assert u1 == Directory("a", [Directory("e", [])]);
    assert AddAt(S08.root.items[0], [], c) == Ok(u1);
    var e1: seq<nat> := [];
    AddAtChild(S08.root, 0, e1, c, u1);
    var u0, e0 := Directory(S08.root.name, S08.root.items[0 := u1]), [0] + e1;
    assert u0 == Directory("/", [Directory("a", [Directory("e", [])]), File(14848514, "b.txt"), File(8504156, "c.dat"), Directory("d", [])]);
    assert e0 == [0];
    assert u0 == S09.root;
  }

  lemma Line08(lines: seq<string>)
    requires lines == TranscriptLines
    ensures Step(S08, lines[8]) == Ok(S09)
  {
    assert lines[8] == "dir e";
    Classify08();
    Resolve08();
    Apply08();
    StepClassified(S08, "dir e", [0], DirEntry("e"));
  }

  lemma RunPrefix08(lines: seq<string>)
    requires lines == TranscriptLines
    ensures Run(lines[..9]) == Ok(S09)
  {
    RunPrefix07(lines);
    Line08(lines);
    RunExtend(lines, 8, S08, S09);
  }

  lemma Digits09()
    ensures NatToString(29116) == "29116"
  {
    assert NatToString(2) == "2";
    assert NatToString(29) == "29";
    assert NatToString(291) == "291";
    assert NatToString(2911) == "2911";
  }

  lemma Classify09()
    ensures ClassifyLine("29116 f") == Ok(FileEntry(29116, "f"))
  {
    Digits09();
    ClassifyFileLine(29116, "f");
    assert NatToString(29116) + " " + "f" == "29116 f";
  }

  lemma Resolve09()
    ensures Resolve(S09.root, S09.cwd) == Ok([0])
  {
    var p1: seq<string>, r1: seq<nat> := [], [];
    FindDirAt(S09.root.items, "a", 0);
    ResolveChild(S09.root, "a", p1, 0, r1);
    var p0, r0 := ["a"] + p1, [0] + r1;
    ResolveSkipRoot(S09.root, p0);
    assert S09.cwd == ["/"] + p0 && r0 == [0];
  }

  lemma Apply09()
    ensures ValidPath(S09.root, [0]) && Apply(S09, [0], FileEntry(29116, "f")) == Ok(S10)
  {
    var c := File(29116, "f");
    var u1 := Directory(S09.root.items[0].name, S09.root.items[0].items + [c]);
    assert u1 == Directory("a", [Directory("e", []), File(29116, "f")]);
    assert AddAt(S09.root.items[0], [], c) == Ok(u1);
    var e1: seq<nat> := [];
    AddAtChild(S09.root, 0, e1, c, u1);
    var u0, e0 := Directory(S09.root.name, S09.root.items[0 := u1]), [0] + e1;
    assert u0 == Directory("/", [Directory("a", [Directory("e", []), File(29116, "f")]), File(14848514, "b.txt"), File(8504156, "c.dat"), Directory("d", [])]);
    assert e0 == [0];
    assert u0 == S10.root;
  }

  lemma Line09(lines: seq<string>)
    requires lines == TranscriptLines
    ensures Step(S09, lines[9]) == Ok(S10)
  {
    assert lines[9] == "29116 f";
    Classify09();
    Resolve09();
    Apply09();
    StepClassified(S09, "29116 f", [0], FileEntry(29116, "f"));
  }

  lemma RunPrefix09(lines: seq<string>)
    requires lines == TranscriptLines
    ensures Run(lines[..10]) == Ok(S10)
  {
    RunPrefix08(lines);
    Line09(lines);
    RunExtend(lines, 9, S09, S10);
  }

  lemma Digits10()
    ensures NatToString(2557) == "2557"
  {
    assert NatToString(2) == "2";
    assert NatToString(25) == "25";
    assert NatToString(255) == "255";
  }

  lemma Classify10()
    ensures ClassifyLine("2557 g") == Ok(FileEntry(2557, "g"))
  {
    Digits10();
    ClassifyFileLine(2557, "g");
    assert NatToString(2557) + " " + "g" == "2557 g";
  }

  lemma Resolve10()
    ensures Resolve(S10.root, S10.cwd) == Ok([0])
  {
    var p1: seq<string>, r1: seq<nat> := [], [];
    FindDirAt(S10.root.items, "a", 0);
    ResolveChild(S10.root, "a", p1, 0, r1);
    var p0, r0 := ["a"] + p1, [0] + r1;
    ResolveSkipRoot(S10.root, p0);
    assert S10.cwd == ["/"] + p0 && r0 == [0];
  }

  lemma Apply10()
    ensures ValidPath(S10.root, [0]) && Apply(S10, [0], FileEntry(2557, "g")) == Ok(S11)
  {
    var c := File(2557, "g");
    var u1 := Directory(S10.root.items[0].name, S10.root.items[0].items + [c]);
    assert u1 == Directory("a", [Directory("e", []), File(29116, "f"), File(2557, "g")]);
    assert AddAt(S10.root.items[0], [], c) == Ok(u1);
    var e1: seq<nat> := [];
    AddAtChild(S10.root, 0, e1, c, u1);
    var u0, e0 := Directory(S10.root.name, S10.root.items[0 := u1]), [0] + e1;
    assert u0 == Directory("/", [Directory("a", [Directory("e", []), File(29116, "f"), File(2557, "g")]), File(14848514, "b.txt"), File(8504156, "c.dat"), Directory("d", [])]);
    assert e0 == [0];
    assert u0 == S11.root;
  }

  lemma Line10(lines: seq<string>)
    requires lines == TranscriptLines
    ensures Step(S10, lines[10]) == Ok(S11)
  {
    assert lines[10] == "2557 g";
    Classify10();
    Resolve10();
    Apply10();
    StepClassified(S10, "2557 g", [0], FileEntry(2557, "g"));
  }

  lemma RunPrefix10(lines: seq<string>)
    requires lines == TranscriptLines
    ensures Run(lines[..11]) == Ok(S11)
  {
    RunPrefix09(lines);
    Line10(lines);
    RunExtend(lines, 10, S10, S11);
  }

  lemma Digits11()
    ensures NatToString(62596) == "62596"
  {
    assert NatToString(6) == "6";
    assert NatToString(62) == "62";
    assert NatToString(625) == "625";
    assert NatToString(6259) == "6259";
  }

  lemma Classify11()
    ensures ClassifyLine("62596 h.lst") == Ok(FileEntry(62596, "h.lst"))
  {
    Digits11();
    ClassifyFileLine(62596, "h.lst");
    assert NatToString(62596) + " " + "h.lst" == "62596 h.lst";
  }

  lemma Resolve11()
    ensures Resolve(S11.root, S11.cwd) == Ok([0])
  {
    var p1: seq<string>, r1: seq<nat> := [], [];
    FindDirAt(S11.root.items, "a", 0);
    ResolveChild(S11.root, "a", p1, 0, r1);
    var p0, r0 := ["a"] + p1, [0] + r1;
    ResolveSkipRoot(S11.root, p0);
    assert S11.cwd == ["/"] + p0 && r0 == [0];
  }

  lemma Apply11()
    ensures ValidPath(S11.root, [0]) && Apply(S11, [0], FileEntry(62596, "h.lst")) == Ok(S12)
  {
    var c := File(62596, "h.lst");
    var u1 := Directory(S11.root.items[0].name, S11.root.items[0].items + [c]);
    assert u1 == Directory("a", [Directory("e", []), File(29116, "f"), File(2557, "g"), File(62596, "h.lst")]);
    assert AddAt(S11.root.items[0], [], c) == Ok(u1);
    var e1: seq<nat> := [];
    AddAtChild(S11.root, 0, e1, c, u1);
    var u0, e0 := Directory(S11.root.name, S11.root.items[0 := u1]), [0] + e1;
    assert u0 == Directory("/", [Directory("a", [Directory("e", []), File(29116, "f"), File(2557, "g"), File(62596, "h.lst")]), File(14848514, "b.txt"), File(8504156, "c.dat"), Directory("d", [])]);
    assert e0 == [0];
    assert u0 == S12.root;
  }

  lemma Line11(lines: seq<string>)
    requires lines == TranscriptLines
    ensures Step(S11, lines[11]) == Ok(S12)
  {
    assert lines[11] == "62596 h.lst";
    Classify11();
    Resolve11();
    Apply11();
    StepClassified(S11, "62596 h.lst", [0], FileEntry(62596, "h.lst"));
  }

  lemma RunPrefix11(lines: seq<string>)
    requires lines == TranscriptLines
    ensures Run(lines[..12]) == Ok(S12)
  {
    RunPrefix10(lines);
    Line11(lines);
    RunExtend(lines, 11, S11, S12);
  }

  lemma Resolve12()
    ensures Resolve(S12.root, S12.cwd) == Ok([0])
  {
    var p1: seq<string>, r1: seq<nat> := [], [];
    FindDirAt(S12.root.items, "a", 0);
    ResolveChild(S12.root, "a", p1, 0, r1);
    var p0, r0 := ["a"] + p1, [0] + r1;
    ResolveSkipRoot(S12.root, p0);
    assert S12.cwd == ["/"] + p0 && r0 == [0];
  }

  lemma Classify12()
    ensures ClassifyLine("$ cd e") == Ok(CdInto("e"))
  {
    SplitThree("$", "cd", "e");
    assert "$" + " " + "cd" + " " + "e" == "$ cd e";
  }

  lemma Apply12()
    ensures Apply(S12, [0], CdInto("e")) == Ok(S13)
  {
    assert Session(S12.cwd + ["e"], S12.root) == S13;
  }

  lemma Line12(lines: seq<string>)
    requires lines == TranscriptLines
    ensures Step(S12, lines[12]) == Ok(S13)
  {
    assert lines[12] == "$ cd e";
    Resolve12();
    Classify12();
    Apply12();
    StepClassified(S12, "$ cd e", [0], CdInto("e"));
  }

  lemma RunPrefix12(lines: seq<string>)
    requires lines == TranscriptLines
    ensures Run(lines[..13]) == Ok(S13)
  {
    RunPrefix11(lines);
    Line12(lines);
    RunExtend(lines, 12, S12, S13);
  }

  lemma Resolve13()
    ensures Resolve(S13.root, S13.cwd) == Ok([0, 0])
  {
    var p2: seq<string>, r2: seq<nat> := [], [];
    FindDirAt(S13.root.items[0].items, "e", 0);
    ResolveChild(S13.root.items[0], "e", p2, 0, r2);
    var p1, r1 := ["e"] + p2, [0] + r2;
    FindDirAt(S13.root.items, "a", 0);
    ResolveChild(S13.root, "a", p1, 0, r1);
    var p0, r0 := ["a"] + p1, [0] + r1;
    ResolveSkipRoot(S13.root, p0);
    assert S13.cwd == ["/"] + p0 && r0 == [0, 0];
  }

  lemma Line13(lines: seq<string>)
    requires lines == TranscriptLines
    ensures Step(S13, lines[13]) == Ok(S14)
  {
    assert lines[13] == "$ ls";
    Resolve13();
    SplitTwo("$", "ls");
    assert "$" + " " + "ls" == "$ ls";
    StepLs(S13, "$ ls");
    assert S13 == S14;
  }

  lemma RunPrefix13(lines: seq<string>)
    requires lines == TranscriptLines
    ensures Run(lines[..14]) == Ok(S14)
  {
    RunPrefix12(lines);
    Line13(lines);
    RunExtend(lines, 13, S13, S14);
  }

  lemma Digits14()
    ensures NatToString(584) == "584"
  {
    assert NatToString(5) == "5";
    assert NatToString(58) == "58";
  }

  lemma Classify14()
    ensures ClassifyLine("584 i") == Ok(FileEntry(584, "i"))
  {
    Digits14();
    ClassifyFileLine(584, "i");
    assert NatToString(584) + " " + "i" == "584 i";
  }

  lemma Resolve14()
    ensures Resolve(S14.root, S14.cwd) == Ok([0, 0])
  {
    var p2: seq<string>, r2: seq<nat> := [], [];
    FindDirAt(S14.root.items[0].items, "e", 0);
    ResolveChild(S14.root.items[0], "e", p2, 0, r2);
    var p1, r1 := ["e"] + p2, [0] + r2;
    FindDirAt(S14.root.items, "a", 0);
    ResolveChild(S14.root, "a", p1, 0, r1);
    var p0, r0 := ["a"] + p1, [0] + r1;
    ResolveSkipRoot(S14.root, p0);
    assert S14.cwd == ["/"] + p0 && r0 == [0, 0];
  }

  lemma Apply14()
    ensures ValidPath(S14.root, [0, 0]) && Apply(S14, [0, 0], FileEntry(584, "i")) == Ok(S15)
  {
    var c := File(584, "i");
    var u2 := Directory(S14.root.items[0].items[0].name, S14.root.items[0].items[0].items + [c]);
    assert u2 == Directory("e", [File(584, "i")]);
    assert AddAt(S14.root.items[0].items[0], [], c) == Ok(u2);
    var e2: seq<nat> := [];
    AddAtChild(S14.root.items[0], 0, e2, c, u2);
    var u1, e1 := Directory(S14.root.items[0].name, S14.root.items[0].items[0 := u2]), [0] + e2;
    assert u1 == Directory("a", [Directory("e", [File(584, "i")]), File(29116, "f"), File(2557, "g"), File(62596, "h.lst")]);
    AddAtChild(S14.root, 0, e1, c, u1);
    var u0, e0 := Directory(S14.root.name, S14.root.items[0 := u1]), [0] + e1;
    assert u0 == Directory("/", [Directory("a", [Directory("e", [File(584, "i")]), File(29116, "f"), File(2557, "g"), File(62596, "h.lst")]), File(14848514, "b.txt"), File(8504156, "c.dat"), Directory("d", [])]);
    assert e0 == [0, 0];
    assert u0 == S15.root;
  }

  lemma Line14(lines: seq<string>)
    requires lines == TranscriptLines
    ensures Step(S14, lines[14]) == Ok(S15)
  {
    assert lines[14] == "584 i";
    Classify14();
    Resolve14();
    Apply14();
    StepClassified(S14, "584 i", [0, 0], FileEntry(584, "i"));
  }

  lemma RunPrefix14(lines: seq<string>)
    requires lines == TranscriptLines
    ensures Run(lines[..15]) == Ok(S15)
  {
    RunPrefix13(lines);
    Line14(lines);
    RunExtend(lines, 14, S14, S15);
  }

  lemma Resolve15()
    ensures Resolve(S15.root, S15.cwd) == Ok([0, 0])
  {
    var p2: seq<string>, r2: seq<nat> := [], [];
    FindDirAt(S15.root.items[0].items, "e", 0);
    ResolveChild(S15.root.items[0], "e", p2, 0, r2);
    var p1, r1 := ["e"] + p2, [0] + r2;
    FindDirAt(S15.root.items, "a", 0);
    ResolveChild(S15.root, "a", p1, 0, r1);
    var p0, r0 := ["a"] + p1, [0] + r1;
    ResolveSkipRoot(S15.root, p0);
    assert S15.cwd == ["/"] + p0 && r0 == [0, 0];
  }

  lemma Classify15()
    ensures ClassifyLine("$ cd ..") == Ok(CdUp)
  {
    SplitThree("$", "cd", "..");
    assert "$" + " " + "cd" + " " + ".." == "$ cd ..";
  }

  lemma Apply15()
    ensures Apply(S15, [0, 0], CdUp) == Ok(S16)
  {
    assert Session(Pop(S15.cwd), S15.root) == S16;
  }

  lemma Line15(lines: seq<string>)
    requires lines == TranscriptLines
    ensures Step(S15, lines[15]) == Ok(S16)
  {
    assert lines[15] == "$ cd ..";
    Resolve15();
    Classify15();
    Apply15();
    StepClassified(S15, "$ cd ..", [0, 0], CdUp);
  }

  lemma RunPrefix15(lines: seq<string>)
    requires lines == TranscriptLines
    ensures Run(lines[..16]) == Ok(S16)
  {
    RunPrefix14(lines);
    Line15(lines);
    RunExtend(lines, 15, S15, S16);
  }

  lemma Resolve16()
    ensures Resolve(S16.root, S16.cwd) == Ok([0])
  {
    var p1: seq<string>, r1: seq<nat> := [], [];
    FindDirAt(S16.root.items, "a", 0);
    ResolveChild(S16.root, "a", p1, 0, r1);
    var p0, r0 := ["a"] + p1, [0] + r1;
    ResolveSkipRoot(S16.root, p0);
    assert S16.cwd == ["/"] + p0 && r0 == [0];
  }

  lemma Classify16()
    ensures ClassifyLine("$ cd ..") == Ok(CdUp)
  {
    SplitThree("$", "cd", "..");
    assert "$" + " " + "cd" + " " + ".." == "$ cd ..";
  }

  lemma Apply16()
    ensures Apply(S16, [0], CdUp) == Ok(S17)
  {
    assert Session(Pop(S16.cwd), S16.root) == S17;
  }

  lemma Line16(lines: seq<string>)
    requires lines == TranscriptLines
    ensures Step(S16, lines[16]) == Ok(S17)
  {
    assert lines[16] == "$ cd ..";
    Resolve16();
    Classify16();
    Apply16();
    StepClassified(S16, "$ cd ..", [0], CdUp);
  }

  lemma RunPrefix16(lines: seq<string>)
    requires lines == TranscriptLines
    ensures Run(lines[..17]) == Ok(S17)
  {
    RunPrefix15(lines);
    Line16(lines);
    RunExtend(lines, 16, S16, S17);
  }

  lemma Classify17()
    ensures ClassifyLine("$ cd d") == Ok(CdInto("d"))
  {
    SplitThree("$", "cd", "d");
    assert "$" + " " + "cd" + " " + "d" == "$ cd d";
  }

  lemma Apply17()
    ensures Apply(S17, [], CdInto("d")) == Ok(S18)
  {
    assert Session(S17.cwd + ["d"], S17.root) == S18;
  }

  lemma Line17(lines: seq<string>)
    requires lines == TranscriptLines
    ensures Step(S17, lines[17]) == Ok(S18)
  {
    assert lines[17] == "$ cd d";
    Classify17();
    Apply17();
    StepClassified(S17, "$ cd d", [], CdInto("d"));
  }

  lemma RunPrefix17(lines: seq<string>)
    requires lines == TranscriptLines
    ensures Run(lines[..18]) == Ok(S18)
  {
    RunPrefix16(lines);
    Line17(lines);
    RunExtend(lines, 17, S17, S18);
  }

  lemma Resolve18()
    ensures Resolve(S18.root, S18.cwd) == Ok([3])
  {
    var p1: seq<string>, r1: seq<nat> := [], [];
    FindDirAt(S18.root.items, "d", 3);
    ResolveChild(S18.root, "d", p1, 3, r1);
    var p0, r0 := ["d"] + p1, [3] + r1;
    ResolveSkipRoot(S18.root, p0);
    assert S18.cwd == ["/"] + p0 && r0 == [3];
  }

  lemma Line18(lines: seq<string>)
    requires lines == TranscriptLines
    ensures Step(S18, lines[18]) == Ok(S19)
  {
    assert lines[18] == "$ ls";
    Resolve18();
    SplitTwo("$", "ls");
    assert "$" + " " + "ls" == "$ ls";
    StepLs(S18, "$ ls");
    assert S18 == S19;
  }

  lemma RunPrefix18(lines: seq<string>)
    requires lines == TranscriptLines
    ensures Run(lines[..19]) == Ok(S19)
  {
    RunPrefix17(lines);
    Line18(lines);
    RunExtend(lines, 18, S18, S19);
  }

  lemma Digits19()
    ensures NatToString(4060174) == "4060174"
  {
    assert NatToString(4) == "4";
    assert NatToString(40) == "40";
    assert NatToString(406) == "406";
    assert NatToString(4060) == "4060";
    assert NatToString(40601) == "40601";
    assert NatToString(406017) == "406017";
  }

  lemma Classify19()
    ensures ClassifyLine("4060174 j") == Ok(FileEntry(4060174, "j"))
  {
    Digits19();
    ClassifyFileLine(4060174, "j");
    assert NatToString(4060174) + " " + "j" == "4060174 j";
  }

  lemma Resolve19()
    ensures Resolve(S19.root, S19.cwd) == Ok([3])
  {
    var p1: seq<string>, r1: seq<nat> := [], [];
    FindDirAt(S19.root.items, "d", 3);
    ResolveChild(S19.root, "d", p1, 3, r1);
    var p0, r0 := ["d"] + p1, [3] + r1;
    ResolveSkipRoot(S19.root, p0);
    assert S19.cwd == ["/"] + p0 && r0 == [3];
  }

  lemma Apply19()
    ensures ValidPath(S19.root, [3]) && Apply(S19, [3], FileEntry(4060174, "j")) == Ok(S20)
  {
    var c := File(4060174, "j");
    var u1 := Directory(S19.root.items[3].name, S19.root.items[3].items + [c]);
    assert u1 == Directory("d", [File(4060174, "j")]);
    assert AddAt(S19.root.items[3], [], c) == Ok(u1);
    var e1: seq<nat> := [];
    AddAtChild(S19.root, 3, e1, c, u1);
    var u0, e0 := Directory(S19.root.name, S19.root.items[3 := u1]), [3] + e1;
    assert u0 == Directory("/", [Directory("a", [Directory("e", [File(584, "i")]), File(29116, "f"), File(2557, "g"), File(62596, "h.lst")]), File(14848514, "b.txt"), File(8504156, "c.dat"), Directory("d", [File(4060174, "j")])]);
    assert e0 == [3];
    assert u0 == S20.root;
  }

  lemma Line19(lines: seq<string>)
    requires lines == TranscriptLines
    ensures Step(S19, lines[19]) == Ok(S20)
  {
    assert lines[19] == "4060174 j";
    Classify19();
    Resolve19();
    Apply19();
    StepClassified(S19, "4060174 j", [3], FileEntry(4060174, "j"));
  }

  lemma RunPrefix19(lines: seq<string>)
    requires lines == TranscriptLines
    ensures Run(lines[..20]) == Ok(S20)
  {
    RunPrefix18(lines);
    Line19(lines);
    RunExtend(lines, 19, S19, S20);
  }

  lemma Digits20()
    ensures NatToString(8033020) == "8033020"
  {
    assert NatToString(8) == "8";
    assert NatToString(80) == "80";
    assert NatToString(803) == "803";
    assert NatToString(8033) == "8033";
    assert NatToString(80330) == "80330";
    assert NatToString(803302) == "803302";
  }

  lemma Classify20()
    ensures ClassifyLine("8033020 d.log") == Ok(FileEntry(8033020, "d.log"))
  {
    Digits20();
    ClassifyFileLine(8033020, "d.log");
    assert NatToString(8033020) + " " + "d.log" == "8033020 d.log";
  }

  lemma Resolve20()
    ensures Resolve(S20.root, S20.cwd) == Ok([3])
  {
    var p1: seq<string>, r1: seq<nat> := [], [];
    FindDirAt(S20.root.items, "d", 3);
    ResolveChild(S20.root, "d", p1, 3, r1);
    var p0, r0 := ["d"] + p1, [3] + r1;
    ResolveSkipRoot(S20.root, p0);
    assert S20.cwd == ["/"] + p0 && r0 == [3];
  }

  lemma Apply20()
    ensures ValidPath(S20.root, [3]) && Apply(S20, [3], FileEntry(8033020, "d.log")) == Ok(S21)
  {
    var c := File(8033020, "d.log");
    var u1 := Directory(S20.root.items[3].name, S20.root.items[3].items + [c]);
    assert u1 == Directory("d", [File(4060174, "j"), File(8033020, "d.log")]);
    assert AddAt(S20.root.items[3], [], c) == Ok(u1);
    var e1: seq<nat> := [];
    AddAtChild(S20.root, 3, e1, c, u1);
    var u0, e0 := Directory(S20.root.name, S20.root.items[3 := u1]), [3] + e1;
    assert u0 == Directory("/", [Directory("a", [Directory("e", [File(584, "i")]), File(29116, "f"), File(2557, "g"), File(62596, "h.lst")]), File(14848514, "b.txt"), File(8504156, "c.dat"), Directory("d", [File(4060174, "j"), File(8033020, "d.log")])]);
    assert e0 == [3];
    assert u0 == S21.root;
  }

  lemma Line20(lines: seq<string>)
    requires lines == TranscriptLines
    ensures Step(S20, lines[20]) == Ok(S21)
  {
    assert lines[20] == "8033020 d.log";
    Classify20();
    Resolve20();
    Apply20();
    StepClassified(S20, "8033020 d.log", [3], FileEntry(8033020, "d.log"));
  }

  lemma RunPrefix20(lines: seq<string>)
    requires lines == TranscriptLines
    ensures Run(lines[..21]) == Ok(S21)
  {
    RunPrefix19(lines);
    Line20(lines);
    RunExtend(lines, 20, S20, S21);
  }

  lemma Digits21()
    ensures NatToString(5626152) == "5626152"
  {
    assert NatToString(5) == "5";
    assert NatToString(56) == "56";
    assert NatToString(562) == "562";
    assert NatToString(5626) == "5626";
    assert NatToString(56261) == "56261";
    assert NatToString(562615) == "562615";
  }

  lemma Classify21()
    ensures ClassifyLine("5626152 d.ext") == Ok(FileEntry(5626152, "d.ext"))
  {
    Digits21();
    ClassifyFileLine(5626152, "d.ext");
    assert NatToString(5626152) + " " + "d.ext" == "5626152 d.ext";
  }

  lemma Resolve21()
    ensures Resolve(S21.root, S21.cwd) == Ok([3])
  {
    var p1: seq<string>, r1: seq<nat> := [], [];
    FindDirAt(S21.root.items, "d", 3);
    ResolveChild(S21.root, "d", p1, 3, r1);
    var p0, r0 := ["d"] + p1, [3] + r1;
    ResolveSkipRoot(S21.root, p0);
    assert S21.cwd == ["/"] + p0 && r0 == [3];
  }

  lemma Apply21()
    ensures ValidPath(S21.root, [3]) && Apply(S21, [3], FileEntry(5626152, "d.ext")) == Ok(S22)
  {
    var c := File(5626152, "d.ext");
    var u1 := Directory(S21.root.items[3].name, S21.root.items[3].items + [c]);
    assert u1 == Directory("d", [File(4060174, "j"), File(8033020, "d.log"), File(5626152, "d.ext")]);
    assert AddAt(S21.root.items[3], [], c) == Ok(u1);
    var e1: seq<nat> := [];
    AddAtChild(S21.root, 3, e1, c, u1);
    var u0, e0 := Directory(S21.root.name, S21.root.items[3 := u1]), [3] + e1;
    assert u0 == Directory("/", [Directory("a", [Directory("e", [File(584, "i")]), File(29116, "f"), File(2557, "g"), File(62596, "h.lst")]), File(14848514, "b.txt"), File(8504156, "c.dat"), Directory("d", [File(4060174, "j"), File(8033020, "d.log"), File(5626152, "d.ext")])]);
    assert e0 == [3];
    assert u0 == S22.root;
  }

  lemma Line21(lines: seq<string>)
    requires lines == TranscriptLines
    ensures Step(S21, lines[21]) == Ok(S22)
  {
    assert lines[21] == "5626152 d.ext";
    Classify21();
    Resolve21();
    Apply21();
    StepClassified(S21, "5626152 d.ext", [3], FileEntry(5626152, "d.ext"));
  }

  lemma RunPrefix21(lines: seq<string>)
    requires lines == TranscriptLines
    ensures Run(lines[..22]) == Ok(S22)
  {
    RunPrefix20(lines);
    Line21(lines);
    RunExtend(lines, 21, S21, S22);
  }

  lemma Digits22()
    ensures NatToString(7214296) == "7214296"
  {
    assert NatToString(7) == "7";
    assert NatToString(72) == "72";
    assert NatToString(721) == "721";
    assert NatToString(7214) == "7214";
    assert NatToString(72142) == "72142";
    assert NatToString(721429) == "721429";
  }

  lemma Classify22()
    ensures ClassifyLine("7214296 k") == Ok(FileEntry(7214296, "k"))
  {
    Digits22();
    ClassifyFileLine(7214296, "k");
    assert NatToString(7214296) + " " + "k" == "7214296 k";
  }

  lemma Resolve22()
    ensures Resolve(S22.root, S22.cwd) == Ok([3])
  {
    var p1: seq<string>, r1: seq<nat> := [], [];
    FindDirAt(S22.root.items, "d", 3);
    ResolveChild(S22.root, "d", p1, 3, r1);
    var p0, r0 := ["d"] + p1, [3] + r1;
    ResolveSkipRoot(S22.root, p0);
    assert S22.cwd == ["/"] + p0 && r0 == [3];
  }

  lemma Apply22()
    ensures ValidPath(S22.root, [3]) && Apply(S22, [3], FileEntry(7214296, "k")) == Ok(S23)
  {
    var c := File(7214296, "k");
    var u1 := Directory(S22.root.items[3].name, S22.root.items[3].items + [c]);
    assert u1 == Directory("d", [File(4060174, "j"), File(8033020, "d.log"), File(5626152, "d.ext"), File(7214296, "k")]);
    assert AddAt(S22.root.items[3], [], c) == Ok(u1);
    var e1: seq<nat> := [];
    AddAtChild(S22.root, 3, e1, c, u1);
    var u0, e0 := Directory(S22.root.name, S22.root.items[3 := u1]), [3] + e1;
    assert u0 == Directory("/", [Directory("a", [Directory("e", [File(584, "i")]), File(29116, "f"), File(2557, "g"), File(62596, "h.lst")]), File(14848514, "b.txt"), File(8504156, "c.dat"), Directory("d", [File(4060174, "j"), File(8033020, "d.log"), File(5626152, "d.ext"), File(7214296, "k")])]);
    assert e0 == [3];
    assert u0 == S23.root;
  }

  lemma Line22(lines: seq<string>)
    requires lines == TranscriptLines
    ensures Step(S22, lines[22]) == Ok(S23)
  {
    assert lines[22] == "7214296 k";
    Classify22();
    Resolve22();
    Apply22();
    StepClassified(S22, "7214296 k", [3], FileEntry(7214296, "k"));
  }

  lemma RunPrefix22(lines: seq<string>)
    requires lines == TranscriptLines
    ensures Run(lines[..23]) == Ok(S23)
  {
    RunPrefix21(lines);
    Line22(lines);
    RunExtend(lines, 22, S22, S23);
  }

  /** The test's input splits into the transcript's lines. */
  lemma ExampleLines()
    ensures Lines(ExampleInput) == TranscriptLines
  {
    NoLineFeeds();
    NoCarriageReturns();
    LinesOfTerminated(TranscriptLines);
  }

  lemma NoLineFeeds()
    ensures forall k :: 0 <= k < |TranscriptLines| ==> '\n' !in TranscriptLines[k]
  {
  }

  lemma NoCarriageReturns()
    ensures forall k :: 0 <= k < |TranscriptLines| ==> StripCR(TranscriptLines[k]) == TranscriptLines[k]
  {
  }

  /** The whole transcript takes the initial session to the last one. */
  lemma RunTranscript(lines: seq<string>)
    requires lines == TranscriptLines
    ensures Run(lines) == Ok(S23)
  {
    RunPrefix22(lines);
    assert lines[..23] == lines;
  }

  /** part_one_example: the transcript builds the expected tree, whose size is
      48381165, and the part-one answer on it is 95437. */
  lemma PartOneExample()
    ensures Process(ExampleInput) == Ok(S23.root)
    ensures Size(S23.root) == 48381165
    ensures SmallDirTotal(S23.root) == 95437
  {
    ExampleLines();
    RunTranscript(TranscriptLines);
    RootTotals();
  }

  /** The directories of the finished tree. */
  const DirE: Item := Directory("e", [File(584, "i")])
  const DirA: Item := Directory("a", [DirE, File(29116, "f"), File(2557, "g"), File(62596, "h.lst")])
  const DirD: Item := Directory("d", [File(4060174, "j"), File(8033020, "d.log"), File(5626152, "d.ext"), File(7214296, "k")])

  /** Directory e holds only i, so it is small and counts once. */
  lemma DirETotals()
    ensures Size(DirE) == 584 && SmallDirTotal(DirE) == 584
  {
    var xs := DirE.items;
    assert xs[..0] == [];
    assert SumSizes(xs) == 584;
    assert SmallDirTotals(xs) == 0;
  }

  /** Directory a is small too: it counts with e inside it. */
  lemma DirATotals()
    ensures Size(DirA) == 94853 && SmallDirTotal(DirA) == 95437
  {
    DirETotals();
    var xs := DirA.items;
    assert xs[..0] == [] && xs[..1] == [DirE];
    assert xs[..2] == [DirE, File(29116, "f")];
    assert xs[..3] == [DirE, File(29116, "f"), File(2557, "g")];
    assert xs[..4] == xs;
    assert xs[..3][..2] == xs[..2] && xs[..2][..1] == xs[..1] && xs[..1][..0] == xs[..0];
    assert SumSizes(xs[..1]) == 584;
    assert SumSizes(xs[..2]) == 29700;
    assert SumSizes(xs[..3]) == 32257;
    assert SumSizes(xs) == 94853;
    assert SmallDirTotals(xs[..1]) == 584;
    assert SmallDirTotals(xs[..2]) == 584;
    assert SmallDirTotals(xs[..3]) == 584;
    assert SmallDirTotals(xs) == 584;
  }

  /** Directory d is over the threshold and holds no directory. */
  lemma DirDTotals()
    ensures Size(DirD) == 24933642 && SmallDirTotal(DirD) == 0
  {
    var xs := DirD.items;
    assert xs[..0] == [] && xs[..1] == [File(4060174, "j")];
    assert xs[..2] == [File(4060174, "j"), File(8033020, "d.log")];
    assert xs[..3] == [File(4060174, "j"), File(8033020, "d.log"), File(5626152, "d.ext")];
    assert xs[..4] == xs;
    assert xs[..3][..2] == xs[..2] && xs[..2][..1] == xs[..1] && xs[..1][..0] == xs[..0];
    assert SumSizes(xs[..1]) == 4060174;
    assert SumSizes(xs[..2]) == 12093194;
    assert SumSizes(xs[..3]) == 17719346;
    assert SumSizes(xs) == 24933642;
    assert SmallDirTotals(xs[..1]) == 0;
    assert SmallDirTotals(xs[..2]) == 0;
    assert SmallDirTotals(xs[..3]) == 0;
    assert SmallDirTotals(xs) == 0;
  }

  /** The root is over the threshold; only a and e count. */
  lemma RootTotals()
    ensures Size(S23.root) == 48381165 && SmallDirTotal(S23.root) == 95437
  {
    DirATotals();
    DirDTotals();
    var xs := S23.root.items;
    assert xs == [DirA, File(14848514, "b.txt"), File(8504156, "c.dat"), DirD];
    assert xs[..0] == [] && xs[..1] == [DirA];
    assert xs[..2] == [DirA, File(14848514, "b.txt")];
    assert xs[..3] == [DirA, File(14848514, "b.txt"), File(8504156, "c.dat")];
    assert xs[..4] == xs;
    assert xs[..3][..2] == xs[..2] && xs[..2][..1] == xs[..1] && xs[..1][..0] == xs[..0];
    assert SumSizes(xs[..1]) == 94853;
    assert SumSizes(xs[..2]) == 14943367;
    assert SumSizes(xs[..3]) == 23447523;
    assert SumSizes(xs) == 48381165;
    assert SmallDirTotals(xs[..1]) == 95437;
    assert SmallDirTotals(xs[..2]) == 95437;
    assert SmallDirTotals(xs[..3]) == 95437;
    assert SmallDirTotals(xs) == 95437;
  }
}
