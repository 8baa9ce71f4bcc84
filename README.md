# Directory sizes from a shell transcript

This project models a program that reads a shell-session transcript and
rebuilds the filesystem tree it describes. The transcript holds `$ cd <name>`,
`$ cd ..`, `$ cd /`, `$ ls`, and listing lines `dir <name>` and
`<size> <name>`. The program then answers "part one": the total size of all
directories whose recursive size is below 100000.

The model has these modules:

- `Results`: the error kinds (a panic in the program becomes an `Err`),
  `Result` and `Option`.
- `Tree`: the `Item` tree, which is a directory with ordered children or a
  file with a 64-bit size.
  - `Size` is the recursive size and `GetSize` is the program's accumulator
    loop, proved equal to `Size`.
  - `AddItem` is `add_item`.
- `Paths`: `get_dir_from_path`, which walks a working-directory stack from the
  root.
  - The `&mut Item` it returns is modelled as an index path into the tree.
    `Resolve` is the specification and `GetDirFromPath` is the cursor loop.
  - Adding a child through that reference is a functional update of the root
    at the path (`AddAt`).
    `Inserted` describes the result: the target gains the child, the
    directories along the path keep their names, and every subtree off the
    path is unchanged.
- `Text`: the string operations the parser relies on. These are `str::lines`,
  `split(' ')` and `parse::<u64>`, each with a round-trip lemma.
- `Query`: `sum_directories_part_one`. `SmallDirTotal` is the recursive
  definition and `SumDirectoriesPartOne` is the loop. Both are proved equal to
  the sum of the sizes of all small directory nodes.
- `Parser`: `process_input`. `Step` is one iteration of the loop and `Run` is
  the fold of `Step` over the lines. `ProcessInput` and `ProcessLine` are the
  loop and its body, proved against `Run` and `Step`.
- `Example`: the `part_one_example` test. The transcript builds the expected
  tree, whose size is 48381165, and the answer on it is 95437.

Details kept from the code:

- The working directory is resolved at the top of every iteration, before the
  line is read. A stack that names a missing directory therefore fails on any
  line, `$ cd ..` included.
- `$ cd ..` on an empty stack leaves it empty, because `Vec::pop` does nothing
  there.
- `$ cd /` is ignored wherever it appears, and does not return to the root
  (src/main.rs:119-121). After `$ cd a` and then `$ cd /`, the stack still
  ends in `a`, and the next listing lines are added to `a`.
- When the resolution cursor is a file, a segment is skipped. A segment that
  names no child directory is an error.
- A line with fewer than two tokens, or `$ cd` without a third token, is
  `Err(MissingToken)`; the program panics in `unwrap`.
- Any other `$` command is `Err(InvalidCommand)`.
- A two-token line that is neither a command, nor `dir`, nor starts with a
  number changes nothing.

## Model

| member | source | states |
|---|---|---|
| Tree.Size | src/main.rs:11-22 | the recursive size: a file's stored size, a directory's children's sizes added left to right (a definition, whose properties are the rows below) |
| Tree.SumSizes | src/main.rs:14-20 | the total of a directory's children, in the loop's left-to-right order; no child is larger than the total |
| Tree.SizeBase | src/main.rs:11-21 | a file's size is its stored size; an empty directory has size 0 |
| Tree.SumSizesIsSum | src/main.rs:14-20 | a directory's size is the sum of its children's sizes |
| Tree.GetSize | src/main.rs:11-22 | the accumulator loop returns exactly the recursive size `Size` |
| Tree.AddItem | src/main.rs:24-31 | on a directory: same name, old children kept in order, the item appended last, size grows by the item's size; on a file: exactly the error `CannotAddItemToFile` |
| Tree.SumSizesUpdate | src/main.rs:14-20 | replacing one child changes a directory's size by the difference of the two children's sizes |
| Query.SmallDirTotal | src/main.rs:36-51 | the recursive query: a directory below 100000 contributes its own size, and the answer is at least that size and at least every child's answer |
| Query.SmallDirTotals | src/main.rs:45-47 | the children's answers added left to right; no child's answer is larger than the total |
| Query.SmallDirTotalIsSumOverNodes | src/main.rs:36-51 | the recursive query equals the sum, over every node of the subtree (root included), of the node's size when it is a directory below 100000 |
| Query.NodesAreAllSubtreesOnce | src/main.rs:36-51 | the nodes the query visits are exactly the subtrees at valid index paths, each path once: node k is the subtree at path k, the paths are pairwise different, and every valid path is among them |
| Query.SumDirectoriesPartOne | src/main.rs:36-51 | the loop returns the recursive query's value, and so the sum over small directory nodes |
| Paths.FindDir | src/main.rs:69-78 | a found position is the first child that is a directory with that name; nothing is found exactly when no child directory has it; files never match |
| Paths.Resolve | src/main.rs:58-83 | a result is a valid path; from a directory it reaches a directory; a failure names a segment of the stack other than `/` |
| Paths.ResolveIsFirstDirPath | src/main.rs:58-83 | from a directory, resolution gives `idx` if and only if `idx` takes the first matching child directory for each name of the stack with the `/` markers dropped |
| Paths.ResolveIgnoresRoot | src/main.rs:62-65 | removing every `/` from the stack does not change the result |
| Paths.ResolveOnlyRoot | src/main.rs:62-65 | a stack of only `/` markers (or an empty one) resolves to the root |
| Paths.ResolveFromFile | src/main.rs:68-79 | from a file every segment is skipped and the file itself is the answer |
| Paths.GetDirFromPath | src/main.rs:58-83 | the cursor loop returns exactly `Resolve`'s result |
| Paths.AddAt | src/main.rs:139-152 | inserting through a resolved path fails exactly when the target is a file, with `CannotAddItemToFile`; otherwise the target becomes what `add_item` makes of it, the root keeps its name and the tree grows by the child's size |
| Paths.AddAtInserts | src/main.rs:139-152 | a successful insertion is an `Inserted` tree: the target has the child appended; every directory along the path keeps its name and number of children; every subtree off the path is unchanged |
| Paths.InsertedUnique | src/main.rs:139-152 | `Inserted` pins the new tree down: two trees that both satisfy it for the same old tree, path and child are equal |
| Text.Split | src/main.rs:98 | a line has at least one token, and no token holds a space |
| Text.SplitTwo | src/main.rs:98-101 | a line of two space-free tokens splits into exactly those two tokens |
| Text.SplitThree | src/main.rs:98-109 | a line of three space-free tokens splits into exactly those three tokens |
| Text.JoinSplitOn | src/main.rs:98 | joining the pieces of a split with the separator gives the string back |
| Text.SplitJoinOn | src/main.rs:98 | splitting a join of separator-free pieces gives the pieces back |
| Text.Lines | src/main.rs:94 | no line holds a line feed |
| Text.LinesOfTerminated | src/main.rs:94 | a text that ends every line with a line feed reads back as exactly those lines |
| Text.ParseNatToString | src/main.rs:148 | every 64-bit number parses back from its decimal digits |
| Text.ParseU64 | src/main.rs:148 | a string is a number exactly when it is a non-empty string of decimal digits whose value fits in 64 bits, leading zeros allowed; when the digits have no leading zero, the number read is written with exactly those digits |
| Text.ParseU64Form | src/main.rs:148 | the string a number was read from is some zeros followed by the number's decimal form |
| Text.ParseZeroPadded | src/main.rs:148 | any number of zeros in front of a 64-bit number's decimal form still reads as that number (`007` is 7) |
| Text.LeadingZeros | src/main.rs:148 | leading zeros do not change the value of a string of digits |
| Text.DigitsForm | src/main.rs:148 | every non-empty string of digits is some zeros followed by the decimal form of its value |
| Text.NatToStringOfDigits | src/main.rs:148 | decimal digits without a leading zero are the decimal form of their value |
| Text.NotANumber | src/main.rs:148 | an empty token, or one with a non-digit character, is not a number |
| Parser.ClassifyLine | src/main.rs:98-155 | a line fails only with `MissingToken` or `InvalidCommand`; a classified line has at least two tokens; a `cd` target is never `..` or `/`, and no name read from a line holds a space |
| Parser.Step | src/main.rs:95-156 | one iteration: resolve the working directory, classify the line, then act on it (a definition, whose properties are the `Step…` rows) |
| Parser.Run | src/main.rs:94-156 | the iterations over the lines in order, stopping at the first error (a definition, whose properties are the `Run…` rows) |
| Parser.Process | src/main.rs:86-159 | the tree built from an input, whose size is the total of the file sizes its lines declare |
| Parser.Pop | src/main.rs:113 | popping removes the top entry, and popping an empty stack leaves it empty |
| Parser.ProcessLine | src/main.rs:95-155 | one iteration of the loop returns exactly `Step`'s result |
| Parser.ProcessInput | src/main.rs:86-159 | the loop returns exactly `Process` of the input, i.e. the fold of `Step` over its lines |
| Parser.RunStopsAtError | src/main.rs:96-132 | once a line fails, the whole run fails with that error |
| Parser.StepCd | src/main.rs:107-127 | `$ cd ..` pops, `$ cd /` keeps the session, `$ cd <name>` pushes `<name>`; the tree is unchanged |
| Parser.StepLs | src/main.rs:128-131 | any line whose tokens start with `$` and `ls` leaves the session unchanged, whatever follows |
| Parser.StepUnknownCommand | src/main.rs:132 | any line whose first token is `$` and whose second is neither `cd` nor `ls` fails with `InvalidCommand` naming that token |
| Parser.StepCdWithoutName | src/main.rs:109 | a line whose only tokens are `$` and `cd` fails with `MissingToken` |
| Parser.StepSingleToken | src/main.rs:100-101 | a line without a space has no second token and fails |
| Parser.StepUnresolved | src/main.rs:96 | a working directory that does not resolve fails the step whatever the line is |
| Parser.ClassifyDirLine | src/main.rs:137-142 | `dir <name>` with a space-free name is a directory entry for that name |
| Parser.ClassifyFileLine | src/main.rs:147-152 | `<size> <name>`, with the size written in decimal and a space-free name, is a file entry of that size and name |
| Parser.StepDir | src/main.rs:137-145 | `dir <name>` appends an empty directory as the current directory's last child and leaves the rest of the tree unchanged (`Inserted`); the stack, the root's name and the total size are unchanged |
| Parser.StepFile | src/main.rs:147-155 | `<size> <name>` appends that file as the current directory's last child and leaves the rest of the tree unchanged (`Inserted`); the stack and the root's name are unchanged; the total size grows by `size` |
| Parser.StepIgnored | src/main.rs:147-156 | a two-token line that is not a command, not `dir` and not a number leaves the session unchanged |
| Parser.StepShape | src/main.rs:107-155 | a step keeps the stack, pops it, or pushes one name onto it; a step that moves the working directory leaves the tree unchanged |
| Parser.RunStackBound | src/main.rs:92-156 | after any lines the stack holds at most one more entry than there were lines |
| Parser.StepKeepsRoot | src/main.rs:87-90 | a step keeps the root a directory named `/` and never fails by adding to a file |
| Parser.RunKeepsRoot | src/main.rs:87-158 | after any lines the root is a directory named `/`, and no run fails with `CannotAddItemToFile` |
| Parser.ProcessBuildsRoot | src/main.rs:86-159 | the tree built from any input is a directory named `/`, and the add-to-file panic never happens |
| Parser.StepSize | src/main.rs:137-155 | a step grows the tree by exactly the size its line declares |
| Parser.RunSizeIsDeclaredTotal | src/main.rs:94-156 | the built tree's size is the total of the sizes the file lines declare |
| Parser.RunExtend | src/main.rs:94 | running one more line is one more step from where the shorter run ended |
| Parser.RunFollowsTrace | src/main.rs:94-156 | a chain of sessions that each line takes to the next, from the initial session on, ends where the run ends |
| Example.PartOneExample | src/main.rs:174-202 | the test transcript builds the expected tree, its size is 48381165 and the part-one answer is 95437 |

## Left out

- `read_input` and `main` read `input.txt` and print to the console. They are file I/O and output, and are not modelled.
- The puzzle's part two, which finds the smallest directory to delete using the disk-capacity and space-to-free arithmetic (70000000 and 30000000), is not modelled. `src/main.rs` contains no code for it, so the model has nothing to follow.
- Tree.GetSize: sizes and sums are unbounded naturals. The program adds `u64` values, which panics (debug) or wraps (release) on overflow; that is not modelled. A file's own size is still bounded by 2^64 - 1.
- Query.SumDirectoriesPartOne: the `u64` accumulator's overflow is not modelled, for the same reason.
- Text.ParseU64: the model accepts a non-empty string of decimal digits whose value fits in 64 bits. It does not accept the leading `+` that Rust's `parse::<u64>` also takes.
- The in-place updates are modelled on values. These are the `push` on a directory's `Vec` and the mutation of `root` through the `&mut Item` that `get_dir_from_path` returns. The reference becomes an index path, and an update rebuilds the directories along that path. Aliasing and borrow rules are not modelled.
- Panics (`unwrap`, `expect`, `panic!`) are modelled as the `Err` results of `Results.Error`, not as process termination.
- `str::lines` is modelled for line feeds, with one trailing carriage return dropped from a line a line feed ends. The Unicode details of Rust strings are not modelled: a string is a sequence of characters.
