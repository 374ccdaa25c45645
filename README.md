# CMFileManager shell error classifier and settings table, in Dafny

This project models two pieces of the CyanogenMod file explorer.

The first is the error classifier of the wrapping shell command (`sh`/`su`).
After a command has run, the console checks its exit code and the text it
captured from standard error, and this classifier decides which typed
exception, if any, is thrown:

- `checkExitCode` maps exit code 127 to `CommandNotFoundException` and 255 to
  `ExecutionException`. Both carry the shell's identifier.
- `checkStdErr` is an ordered chain of case-sensitive substring tests. Each test
  applies only when the exit code is nonzero. The patterns are "No such file or
  directory", "Usage:", "Permission denied", "Operation not permitted" and
  "Read-only file system". The first pattern found decides the exception.

The second is the `ExplorerSettings` enumeration. It has eight settings, each
with a preference key (its id) and a default value, plus the lookup `fromId`.

Files:

- `wrappers.dfy`: `Option`, which stands in for Java's nullable references.
- `text.dfy`: Java's `String.indexOf(String)`, modelled as `IndexOf`, and the
  containment predicate it is proved against.
- `shell.dfy`: `Shell.java`. The two checks are pure functions that return an
  `Outcome`: `Pass` (returns normally) or `Fail(error)` (throws `error`). There
  is also a table form of the `checkStdErr` chain and lemmas that relate the two.
- `explorer_settings.dfy`: `ExplorerSettings.java`. The enum constants are a
  datatype and the constructor arguments are a table. `fromId` is a method with
  a loop over `values()`, proved against the function `FirstWithId`.

Java's `int` exit code is the newtype `int32`. Only equality tests are made on
it, so no wrap-around arises.

Behaviour of the code that the model keeps as written:

- With a nonzero exit code and none of the five patterns, `checkStdErr` returns
  normally (Shell.java:108). It raises no catch-all error, and `CheckStdErr`
  returns `Pass`.
- For exit code 255, `ExecutionException` carries only the shell's id as its
  message (Shell.java:58), not the exit code.
- The two checks are separate methods. The caller that runs them is not part of
  this model.

## Model

| member | source | states |
|---|---|---|
| Text.IndexOf | src/com/cyanogenmod/explorer/commands/shell/Shell.java:80 | `indexOf` gives -1 exactly when the pattern occurs nowhere in the buffer; otherwise it gives a position where the pattern occurs, and no earlier position has it |
| Text.Found | src/com/cyanogenmod/explorer/commands/shell/Shell.java:80 | the test `err.indexOf(p) != -1` holds exactly when `p` occurs somewhere in `err` |
| Shell.CheckExitCode | src/com/cyanogenmod/explorer/commands/shell/Shell.java:50-60 | 127 gives CommandNotFound with the shell id and 255 gives ExecutionException with the shell id; every other code, 0 and 1 included, throws nothing; standard error is never consulted |
| Shell.PermissionError | src/com/cyanogenmod/explorer/commands/shell/Shell.java:89-100 | the permission exception wraps the program exactly when it is a SyncResultExecutable, and is empty otherwise |
| Shell.CheckStdErr | src/com/cyanogenmod/explorer/commands/shell/Shell.java:76-108 | exit code 0 throws nothing for any text. With a nonzero code: "No such file or directory" or "Usage:" give NoSuchFileOrDirectory, outranking later patterns; otherwise a permission pattern gives InsufficientPermissions; otherwise "Read-only file system" gives ReadOnlyFilesystem(mount point) for a writable program and ExecutionException("Read-only file system") for any other. Something is thrown iff the code is nonzero and one of the five patterns occurs; CommandNotFound is never thrown |
| Shell.FirstRule | src/com/cyanogenmod/explorer/commands/shell/Shell.java:80-107 | the pattern table selects no rule exactly when none of its patterns occurs in the text |
| Shell.ReadOnlyError | src/com/cyanogenmod/explorer/commands/shell/Shell.java:101-107 | a writable program gets ReadOnlyFilesystem carrying its own mount point; any other program gets ExecutionException("Read-only file system") |
| Shell.Raise | src/com/cyanogenmod/explorer/commands/shell/Shell.java:80-107 | each kind of rule throws its exception. A missing path gives NoSuchFileOrDirectory and a permission pattern gives the permission exception. A read-only pattern gives ReadOnlyFilesystem with the program's own mount point for a writable program, and ExecutionException("Read-only file system") for any other |
| Shell.FirstRuleIsEarliest | src/com/cyanogenmod/explorer/commands/shell/Shell.java:80-107 | first match wins: a rule whose pattern occurs, with no earlier pattern occurring, decides the outcome |
| Shell.CheckStdErrFollowsTable | src/com/cyanogenmod/explorer/commands/shell/Shell.java:76-108 | `checkStdErr` equals reading the five-rule table top to bottom: exit code 0 or no match passes, and otherwise the first matching rule throws its exception |
| Shell.MkdirUnderMissingParent | tests/src/com/cyanogenmod/explorer/commands/shell/CreateDirCommandTest.java:64-70 | a `mkdir` under a non-existent parent with exit code 1 is classified as NoSuchFileOrDirectory |
| Shell.MissingPathOutranksPermission | src/com/cyanogenmod/explorer/commands/shell/Shell.java:80-94 | text holding both "Permission denied" and "No such file or directory" is NoSuchFileOrDirectory, even when the permission text comes first |
| Shell.MatchingIsCaseSensitive | src/com/cyanogenmod/explorer/commands/shell/Shell.java:80-108 | lower-case "permission denied" matches no rule, so a failing command with only that text throws nothing |
| ExplorerSettings.Ordinal | src/com/cyanogenmod/explorer/preferences/ExplorerSettings.java:28-65 | every constant sits in `values()` at its declaration position |
| ExplorerSettings.ValuesEnumerateSettings | src/com/cyanogenmod/explorer/preferences/ExplorerSettings.java:28-65 | `values()` has eight entries and lists each constant exactly once |
| ExplorerSettings.Definition | src/com/cyanogenmod/explorer/preferences/ExplorerSettings.java:28-81 | the constructor arguments of each constant: every id is a preference key starting with "cm_explorer_", and the default is a boolean exactly for the five switches |
| ExplorerSettings.GetId | src/com/cyanogenmod/explorer/preferences/ExplorerSettings.java:28-89 | the eight ids are pairwise distinct, so an id determines its setting |
| ExplorerSettings.GetDefaultValue | src/com/cyanogenmod/explorer/preferences/ExplorerSettings.java:96-98 | the default's kind per setting: a boolean exactly for the switches, a string exactly for the initial directory, and the layout and sort constants exactly for the layout and sort modes. `Defaults` gives the values themselves |
| ExplorerSettings.Defaults | src/com/cyanogenmod/explorer/preferences/ExplorerSettings.java:28-98 | the defaults: superuser mode false, initial dir "/sdcard", layout DETAILS, sort NAME_ASC, dirs first and symlinks true, hidden and system false |
| ExplorerSettings.FirstWithId | src/com/cyanogenmod/explorer/preferences/ExplorerSettings.java:107-115 | the lookup gives a listed setting with that id, or nothing exactly when no listed setting has it |
| ExplorerSettings.FromId | src/com/cyanogenmod/explorer/preferences/ExplorerSettings.java:107-115 | the loop returns the first constant of `values()` whose id matches, and null exactly when no constant has that id |
| ExplorerSettings.FromIdOfGetId | src/com/cyanogenmod/explorer/preferences/ExplorerSettings.java:87-115 | round trip: `fromId(s.getId())` is `s` for every setting `s` |

## Left out

- ExplorerSettings.FromId: ids are compared by string value. The Java code compares them by reference (`==`). The round trip holds either way, because `getId` returns the stored reference. A caller passing an equal string that is a different object gets null in Java but a match here.
- A `WritableExecutable` whose `getWritableMountPoint()` is null cannot be represented. For such a program Java throws `ReadOnlyFilesystemException(null)` (Shell.java:103-104). Encoding it as `None` gives `ExecutionFailed("Read-only file system")` instead.
- Null strings cannot be represented, because the model's strings are never null. With `err == null` and a nonzero exit code, Java throws a NullPointerException at Shell.java:80. `fromId(null)` returns null in Java.
- Programs are reduced to what the classifier inspects: whether they implement `SyncResultExecutable` and `WritableExecutable`, and the mount point. `SyncResultExecutable`, `WritableExecutable`, `Command`, `Program` and the exception classes are not part of this model beyond that.
- The `Shell` constructor and the argument formatting it delegates to `Command` are left out, because `Command` is not part of this model. `checkExitCode` takes the shell's id as a parameter instead.
- The code that runs a command on a console and then calls both checks is not part of this model, so the order in which the checks combine is not stated.
- CreateFileCommandTest.java:137-144: that test expects an `ExecutionException` for a file under a missing parent. Whether `NoSuchFileOrDirectory` is a subclass of `ExecutionException` is not visible, so that expectation is not stated.
- `NavigationLayoutMode` and `NavigationSortMode` are reduced to the single constants the settings table uses (DETAILS, NAME_ASC).
- Characters are Unicode scalar values, whereas Java strings are UTF-16 code units. The five patterns are ASCII, so matching agrees for them.
- The console process, the sentinel framing of its streams, console lifecycle, root elevation and preference persistence are I/O or operating-system interaction and are left out. The disk-usage widget (UI, threads, floats) and `BlockDevice` (a data holder) are left out too.
