/** The error classifier of a wrapping shell command (`sh`, `su`): it turns the
    exit code and the captured standard-error text of the command the shell
    ran into one of the console's typed exceptions, or into nothing. */
module Shell {
  import opened Wrappers
  import opened Text

  /** Java's `int`, the type of a process exit code. */
  newtype int32 = x: int | -0x8000_0000 <= x < 0x8000_0000

  /** The mount point a writable program reports (a path). */
  type MountPoint = string

  /** A program run by the shell, as far as the classifier looks at it:
      - `syncResult`: the program is a `SyncResultExecutable`;
      - `writableMountPoint`: `Some(m)` exactly when the program is a
        `WritableExecutable` whose `getWritableMountPoint()` is `m`. */
  datatype Program = Program(id: string, syncResult: bool, writableMountPoint: Option<MountPoint>)
  {
    predicate IsWritable() { writableMountPoint.Some? }
  }

  /** The exceptions the two checks throw. */
  datatype ShellError =
    | CommandNotFound(commandId: string)
    | NoSuchFileOrDirectory
      /** `Some(p)` when the exception wraps the program `p`, `None` for the
          no-argument constructor. */
    | InsufficientPermissions(syncProgram: Option<Program>)
    | ReadOnlyFilesystem(mountPoint: MountPoint)
      /** `ExecutionException(detailMessage)`. */
    | ExecutionFailed(detailMessage: string)

  /** What a check does: return normally, or throw. */
  datatype Outcome = Pass | Fail(error: ShellError)

  // The five standard-error patterns, in the order the classifier tests them.
  const NoSuchFileText: string := "No such file or directory"
  const UsageText: string := "Usage:"
  const PermissionDeniedText: string := "Permission denied"
  const NotPermittedText: string := "Operation not permitted"
  const ReadOnlyText: string := "Read-only file system"

  /** `checkExitCode`: 127 means the command was not found, 255 that there was
      no exit status; both carry the shell's own identifier. Every other code
      passes. The standard error plays no part. */
  function CheckExitCode(shellId: string, exitCode: int32): (r: Outcome)
    ensures exitCode == 127 <==> r == Fail(CommandNotFound(shellId))
    ensures exitCode == 255 <==> r == Fail(ExecutionFailed(shellId))
    ensures exitCode != 127 && exitCode != 255 <==> r == Pass
  {
    if exitCode == 127 then Fail(CommandNotFound(shellId))
    else if exitCode == 255 then Fail(ExecutionFailed(shellId))
    else Pass
  }

  /** The exception thrown for a permission pattern: it wraps the program
      exactly when the program is a `SyncResultExecutable`. */
  function PermissionError(program: Program): (e: ShellError)
    ensures e.InsufficientPermissions?
    ensures e.syncProgram.Some? <==> program.syncResult
    ensures e.syncProgram.Some? ==> e.syncProgram.value == program
  {
    if program.syncResult then InsufficientPermissions(Some(program))
    else InsufficientPermissions(None)
  }

  /** The exception thrown for the read-only pattern: a writable program's
      own mount point, or a generic execution failure for any other program. */
  function ReadOnlyError(program: Program): (e: ShellError)
    ensures program.IsWritable() ==> e == ReadOnlyFilesystem(program.writableMountPoint.value)
    ensures !program.IsWritable() ==> e == ExecutionFailed(ReadOnlyText)
  {
    if program.IsWritable() then ReadOnlyFilesystem(program.writableMountPoint.value)
    else ExecutionFailed(ReadOnlyText)
  }

  /** `checkStdErr`: an ordered chain of case-sensitive substring tests on the
      whole standard-error buffer, each guarded by a nonzero exit code; the
      first pattern found decides, and with no pattern found it returns
      normally. */
  function CheckStdErr(program: Program, exitCode: int32, err: string): (r: Outcome)
    // The command succeeded: nothing is thrown, whatever the text says.
    ensures exitCode == 0 ==> r == Pass
    // A missing path, or a usage message, outranks every later pattern.
    ensures exitCode != 0 && (Contains(err, NoSuchFileText) || Contains(err, UsageText))
            ==> r == Fail(NoSuchFileOrDirectory)
    ensures exitCode != 0 && !Contains(err, NoSuchFileText) && !Contains(err, UsageText)
            && (Contains(err, PermissionDeniedText) || Contains(err, NotPermittedText))
            ==> r == Fail(PermissionError(program))
    ensures exitCode != 0 && !Contains(err, NoSuchFileText) && !Contains(err, UsageText)
            && !Contains(err, PermissionDeniedText) && !Contains(err, NotPermittedText)
            && Contains(err, ReadOnlyText)
            ==> r == Fail(if program.IsWritable() then ReadOnlyFilesystem(program.writableMountPoint.value)
                          else ExecutionFailed(ReadOnlyText))
    // Something is thrown exactly when the code is nonzero and a pattern occurs.
    ensures r.Fail? <==> exitCode != 0 && (Contains(err, NoSuchFileText) || Contains(err, UsageText)
                                           || Contains(err, PermissionDeniedText)
                                           || Contains(err, NotPermittedText) || Contains(err, ReadOnlyText))
    // Although declared, `CommandNotFoundException` is never thrown here.
    ensures r.Fail? ==> !r.error.CommandNotFound?
  {
    if exitCode != 0 && Found(err, NoSuchFileText) then
      Fail(NoSuchFileOrDirectory)
    // A usage message is taken as caused by a non-existent path.
    else if exitCode != 0 && Found(err, UsageText) then
      Fail(NoSuchFileOrDirectory)
    else if exitCode != 0 && Found(err, PermissionDeniedText) then
      Fail(PermissionError(program))
    else if exitCode != 0 && Found(err, NotPermittedText) then
      Fail(PermissionError(program))
    else if exitCode != 0 && Found(err, ReadOnlyText) then
      Fail(ReadOnlyError(program))
    else
      Pass
  }

  /** The classifier as a table: each standard-error pattern with the kind of
      exception it selects, in the order the chain tests them. */
  datatype ErrorKind = MissingPath | NoPermission | ReadOnlyTarget

  const StdErrRules: seq<(string, ErrorKind)> := [
    (NoSuchFileText, MissingPath),
    (UsageText, MissingPath),
    (PermissionDeniedText, NoPermission),
    (NotPermittedText, NoPermission),
    (ReadOnlyText, ReadOnlyTarget)
  ]

  /** The kind of the first rule whose pattern occurs in `err`. */
  ghost function FirstRule(rules: seq<(string, ErrorKind)>, err: string): (r: Option<ErrorKind>)
    ensures r.None? <==> forall k :: 0 <= k < |rules| ==> !Contains(err, rules[k].0)
  {
    if rules == [] then None
    else if Contains(err, rules[0].0) then Some(rules[0].1)
    else
      var r := FirstRule(rules[1..], err);
      assert forall k :: 1 <= k < |rules| ==> rules[k] == rules[1..][k - 1];
      r
  }

  /** The exception a kind of rule throws for a program. */
  function Raise(kind: ErrorKind, program: Program): (e: ShellError)
    ensures kind == MissingPath ==> e == NoSuchFileOrDirectory
    ensures kind == NoPermission ==> e == PermissionError(program)
    ensures kind == ReadOnlyTarget && program.IsWritable() ==> e == ReadOnlyFilesystem(program.writableMountPoint.value)
    ensures kind == ReadOnlyTarget && !program.IsWritable() ==> e == ExecutionFailed(ReadOnlyText)
  {
    match kind
    case MissingPath => NoSuchFileOrDirectory
    case NoPermission => PermissionError(program)
    case ReadOnlyTarget => ReadOnlyError(program)
  }

  /** The first rule in the table wins: a rule whose pattern occurs, with no
      earlier pattern occurring, decides the kind. */
  lemma {:induction false} FirstRuleIsEarliest(rules: seq<(string, ErrorKind)>, err: string, i: nat)
    requires i < |rules| && Contains(err, rules[i].0)
    requires forall k :: 0 <= k < i ==> !Contains(err, rules[k].0)
    ensures FirstRule(rules, err) == Some(rules[i].1)
  {
    if i > 0 {
      assert forall k :: 0 <= k < i - 1 ==> rules[1..][k] == rules[k + 1];
      FirstRuleIsEarliest(rules[1..], err, i - 1);
    }
  }

  /** `checkStdErr` is exactly the table read top to bottom: with a nonzero
      exit code the first matching rule throws, and with no match (or a zero
      exit code) nothing is thrown. */
  lemma CheckStdErrFollowsTable(program: Program, exitCode: int32, err: string)
    ensures CheckStdErr(program, exitCode, err) ==
            if exitCode == 0 then Pass
            else match FirstRule(StdErrRules, err)
                 case None => Pass
                 case Some(kind) => Fail(Raise(kind, program))
  {
    var rules := StdErrRules;
    if exitCode != 0 {
      if Contains(err, NoSuchFileText) {
        FirstRuleIsEarliest(rules, err, 0);
      } else if Contains(err, UsageText) {
        FirstRuleIsEarliest(rules, err, 1);
      } else if Contains(err, PermissionDeniedText) {
        FirstRuleIsEarliest(rules, err, 2);
      } else if Contains(err, NotPermittedText) {
        FirstRuleIsEarliest(rules, err, 3);
      } else if Contains(err, ReadOnlyText) {
        FirstRuleIsEarliest(rules, err, 4);
      } else {
        assert FirstRule(rules, err) == None;
      }
    }
  }

  /** The `mkdir` under a non-existent parent expected by CreateDirCommandTest:
      the `mkdir` message with exit code 1 is classified as a missing path. */
  lemma MkdirUnderMissingParent(program: Program)
    ensures CheckStdErr(program, 1, "mkdir: cannot create directory '/mnt/sdcard121212/newtestdir': "
                                    + "No such file or directory")
            == Fail(NoSuchFileOrDirectory)
  {
    OccursAfter("mkdir: cannot create directory '/mnt/sdcard121212/newtestdir': ", NoSuchFileText, "");
    assert "mkdir: cannot create directory '/mnt/sdcard121212/newtestdir': " + NoSuchFileText + "" ==
           "mkdir: cannot create directory '/mnt/sdcard121212/newtestdir': " + "No such file or directory";
  }

  /** A message naming both a denied permission and a missing file is a
      missing file, whatever their order: the earlier rule wins. */
  lemma MissingPathOutranksPermission(program: Program)
    ensures CheckStdErr(program, 1, PermissionDeniedText + "; " + NoSuchFileText) == Fail(NoSuchFileOrDirectory)
  {
    OccursAfter(PermissionDeniedText + "; ", NoSuchFileText, "");
    assert PermissionDeniedText + "; " + NoSuchFileText + "" == PermissionDeniedText + "; " + NoSuchFileText;
  }

  /** Matching is case-sensitive: a lower-case "permission denied" matches no
      rule, so a failing command with only that text passes the check. */
  lemma MatchingIsCaseSensitive(program: Program)
    ensures CheckStdErr(program, 1, "permission denied") == Pass
  {
    var err := "permission denied";
    AbsentFirstChar(err, NoSuchFileText);
    AbsentFirstChar(err, UsageText);
    AbsentFirstChar(err, PermissionDeniedText);
    AbsentFirstChar(err, NotPermittedText);
    AbsentFirstChar(err, ReadOnlyText);
  }
}
