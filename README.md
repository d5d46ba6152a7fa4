# Cosmic IDE main activity: smali formatting, class listing, artifact paths, class-path provisioning

This project models the logic at the core of the IDE's main activity
(`MainActivity.java`), written in Dafny, and proves properties of it:

- **Smali formatting** (`formatSmali`, `shouldSkip`). The smali text of a class is
  split on line feeds, as Java's `String.split("\n")` does: trailing empty
  pieces are dropped, and an empty text gives one empty line. An
  "inside a method" flag is carried down the lines. A line starting with
  `.method` raises it and one starting with `.end method` lowers it. While it is
  raised, each line is followed by a blank line unless, once trimmed, it starts
  with `.line`, `:` or `.prologue`. The lines are then joined with line feeds.
  Module `SmaliFormatter`, over the Java string operations in `JavaStrings`.
- **Class listing** (`getClassesFromDex`). Each class descriptor of the compiled
  dex file becomes a dotted class name: every `/` becomes `.`, and the first and
  last characters are cut off. One descriptor shorter than two characters, or a
  dex file that cannot be loaded, makes the whole list fail. Module `DexClasses`.
- **Artifact paths** (`smali`, `decompile`, `disassemble`). A picked class name is
  turned back into an internal name. From it come the smali, class and
  decompiled-source file paths, and the command lines of baksmali and the
  decompiler. Module `Artifacts`.
- **Class-path provisioning** (start-up of the activity). `android.jar` is
  unpacked when it is absent. `core-lambda-stubs.jar` is copied when it is
  absent and the `javaVersion` setting (default `"7.0"`) is `"8.0"`. The file
  system is a set of present paths held by the class `Provisioning.Disk`.
  Module `Provisioning`.

`formatSmali` updates its line list in place and then fills a string builder.
It is modelled as the method `FormatSmali`, which copies the split lines into an
array. It then runs `PadMethodBodies`, the first loop, on the array in place,
and `JoinLines`, the second loop, over it. `PadMethodBodies` is proved to leave
the array equal to `Reformatted` of its old contents, `JoinLines` to return
`Join` of the array, and `FormatSmali` to return `Join(Reformatted(Split(input)))`,
the specification function `Formatted`; the lemmas state what `formatSmali`
promises about these functions.

## Model

| member | source | states |
|---|---|---|
| SmaliFormatter.FormatSmali | app/src/main/java/com/pranav/java/ide/MainActivity.java:394-420 | the output is the split input's lines, each one that is padded followed by one extra line feed, joined with line feeds |
| SmaliFormatter.PadMethodBodies | app/src/main/java/com/pranav/java/ide/MainActivity.java:398-409 | the in-place loop leaves each line as `Reformatted` says: followed by a line feed exactly when the method flag is up after the line and the line is not skipped |
| SmaliFormatter.JoinLines | app/src/main/java/com/pranav/java/ide/MainActivity.java:411-417 | the string builder loop yields the lines with a line feed between consecutive lines only |
| SmaliFormatter.ShouldSkip | app/src/main/java/com/pranav/java/ide/MainActivity.java:422-430 | true exactly when the trimmed line starts with `.line`, `:` or `.prologue` |
| SmaliFormatter.LinesOnlyGainOneNewline | app/src/main/java/com/pranav/java/ide/MainActivity.java:408 | each line is kept or gets exactly one line feed appended, and it changes exactly when it is padded |
| SmaliFormatter.UnpaddedReformatted | app/src/main/java/com/pranav/java/ide/MainActivity.java:400-409 | removing the appended line feed from every line gives back the original lines |
| SmaliFormatter.RemovingPaddingRestoresInput | app/src/main/java/com/pranav/java/ide/MainActivity.java:396-417 | deleting the inserted blank lines gives the input without its trailing line feeds |
| SmaliFormatter.Step | app/src/main/java/com/pranav/java/ide/MainActivity.java:404-406 | the flag after a line: raised by a line starting with `.method`, lowered by one starting with `.end method`, kept by any other |
| SmaliFormatter.StaysOutside | app/src/main/java/com/pranav/java/ide/MainActivity.java:404-406 | once the flag is down it stays down until a line starting with `.method` |
| SmaliFormatter.BeforeFirstMethodUnchanged | app/src/main/java/com/pranav/java/ide/MainActivity.java:398-408 | lines before the first `.method` line come out unchanged |
| SmaliFormatter.AfterEndMethodUnchanged | app/src/main/java/com/pranav/java/ide/MainActivity.java:404-408 | lines from an `.end method` line up to the next `.method` line come out unchanged |
| SmaliFormatter.MethodLinePadded | app/src/main/java/com/pranav/java/ide/MainActivity.java:404-408 | a line starting with `.method` gets a blank line after it |
| SmaliFormatter.EndMethodLineNotPadded | app/src/main/java/com/pranav/java/ide/MainActivity.java:406-408 | a line starting with `.end method` never gets a blank line |
| SmaliFormatter.BodyLine | app/src/main/java/com/pranav/java/ide/MainActivity.java:404-408 | inside a method body, a line other than `.end method` is padded exactly when it is not skipped |
| SmaliFormatter.BlankBodyLinePadded | app/src/main/java/com/pranav/java/ide/MainActivity.java:408 | an empty or all-blank line inside a method body gets a blank line after it |
| SmaliFormatter.SkipIgnoresIndentation | app/src/main/java/com/pranav/java/ide/MainActivity.java:427 | leading indentation does not change whether a line is skipped |
| SmaliFormatter.IndentedMarkersIgnored | app/src/main/java/com/pranav/java/ide/MainActivity.java:404-406 | the `.method` and `.end method` tests are on the untrimmed line: a line starting with a blank or control character leaves the flag as it was |
| SmaliFormatter.IndentedLineDirectiveSkipped | app/src/main/java/com/pranav/java/ide/MainActivity.java:424-427 | an indented `.line` directive is skipped |
| SmaliFormatter.NewlinesOfLine | app/src/main/java/com/pranav/java/ide/MainActivity.java:408 | an output line holds one line feed if it was padded and none otherwise |
| SmaliFormatter.PaddedNewlines | app/src/main/java/com/pranav/java/ide/MainActivity.java:400-409 | the line feeds inside the first n output lines number the padded lines among them |
| SmaliFormatter.OutputLineCount | app/src/main/java/com/pranav/java/ide/MainActivity.java:396-417 | the output has as many lines as the split input plus the number of padded lines |
| SmaliFormatter.BlankInputFormatsToEmpty | app/src/main/java/com/pranav/java/ide/MainActivity.java:396-419 | an input made only of line feeds splits into no lines and formats to the empty text |
| SmaliFormatter.OutputEnds | app/src/main/java/com/pranav/java/ide/MainActivity.java:411-417 | the output starts with the first line (no leading separator) and ends with a line feed exactly when the last line was padded |
| SmaliFormatter.ExampleSplit | app/src/main/java/com/pranav/java/ide/MainActivity.java:396 | a five-line method with a final line feed splits into its five lines |
| SmaliFormatter.ExampleFlags | app/src/main/java/com/pranav/java/ide/MainActivity.java:404-406 | in that method the flag is up on the first four lines and down on `.end method` |
| SmaliFormatter.ExampleSkips | app/src/main/java/com/pranav/java/ide/MainActivity.java:424-427 | a label and a `.line` directive are skipped and an instruction is not |
| SmaliFormatter.ExampleReformatted | app/src/main/java/com/pranav/java/ide/MainActivity.java:400-409 | in that method only the `.method` line and the instruction get a blank line |
| SmaliFormatter.ExampleMethod | app/src/main/java/com/pranav/java/ide/MainActivity.java:394-420 | the formatted text of that method is those lines joined with line feeds |
| JavaStrings.Trim | app/src/main/java/com/pranav/java/ide/MainActivity.java:427 | `String.trim`: the definition strips characters up to U+0020 at both ends; its properties are proved by `TrimOfBlank`, `TrimIgnoresIndentation` and `TrimKeepsSolidPrefix` |
| JavaStrings.TrimOfBlank | app/src/main/java/com/pranav/java/ide/MainActivity.java:427 | trimming a string of blanks and control characters gives the empty string |
| JavaStrings.TrimIgnoresIndentation | app/src/main/java/com/pranav/java/ide/MainActivity.java:427 | trimming ignores leading blanks |
| JavaStrings.TrimKeepsSolidPrefix | app/src/main/java/com/pranav/java/ide/MainActivity.java:427 | a line starting with a prefix that has no blanks still starts with it once trimmed |
| JavaStrings.Split | app/src/main/java/com/pranav/java/ide/MainActivity.java:396 | splitting the empty text gives one empty line, and otherwise the last line is never empty |
| JavaStrings.SplitPieces | app/src/main/java/com/pranav/java/ide/MainActivity.java:396 | no split line holds a line feed |
| JavaStrings.JoinSplit | app/src/main/java/com/pranav/java/ide/MainActivity.java:396-417 | joining the split lines with line feeds gives the text without its trailing line feeds |
| JavaStrings.SplitJoinedLines | app/src/main/java/com/pranav/java/ide/MainActivity.java:396-417 | splitting lines joined with a final line feed gives the lines back, when the last line is not empty |
| JavaStrings.JoinNewlineCount | app/src/main/java/com/pranav/java/ide/MainActivity.java:411-417 | the joined text holds one line feed per separator plus those inside the lines |
| JavaStrings.JoinEnds | app/src/main/java/com/pranav/java/ide/MainActivity.java:411-417 | the joined text starts with the first line and ends with the last |
| JavaStrings.ReplaceCharRoundTrip | app/src/main/java/com/pranav/java/ide/MainActivity.java:478 | replacing one character by another, and back, restores a text that had none of the second |
| DexClasses.DottedName | app/src/main/java/com/pranav/java/ide/MainActivity.java:478-479 | a name exists exactly for descriptors of at least two characters, is two characters shorter, holds no `/`, and has a `.` exactly where the descriptor's interior had a `/` or a `.` |
| DexClasses.GetClassesFromDex | app/src/main/java/com/pranav/java/ide/MainActivity.java:468-486 | a list exists exactly when the dex file loaded and every descriptor is convertible, and then it has one dotted name per class, in dex order |
| DexClasses.DescriptorInterior | app/src/main/java/com/pranav/java/ide/MainActivity.java:478-479 | the name of `L` + s + `;` is s with every `/` turned into `.` |
| DexClasses.DottedNameInjective | app/src/main/java/com/pranav/java/ide/MainActivity.java:477-479 | class descriptors without `.` that give the same name are the same descriptor |
| Artifacts.InternalName | app/src/main/java/com/pranav/java/ide/MainActivity.java:318 | `replace(".", "/")` on the class name (also at :290 and :368): same length, no `.` left; undone by the descriptor conversion as `ArtifactsOfDescriptor` proves |
| Artifacts.SmaliPath | app/src/main/java/com/pranav/java/ide/MainActivity.java:286-291 | the definition is the contract; `ArtifactsOfDescriptor`, `ArtifactsDistinct` and `SmaliViewerReadsBaksmaliOutput` prove its properties |
| Artifacts.ClassFilePath | app/src/main/java/com/pranav/java/ide/MainActivity.java:319-324 | the class file read by the decompiler and by the disassembler (:379); the definition is the contract; `ArtifactsOfDescriptor`, `ArtifactsDistinct` and `SourceViewerReadsCfrOutput` prove its properties |
| Artifacts.DecompiledPath | app/src/main/java/com/pranav/java/ide/MainActivity.java:346 | the definition is the contract; `ArtifactsOfDescriptor`, `ArtifactsDistinct` and `SourceViewerReadsCfrOutput` prove its properties |
| Artifacts.BaksmaliArgs | app/src/main/java/com/pranav/java/ide/MainActivity.java:271-277 | baksmali's four arguments; the definition is the contract; `SmaliViewerReadsBaksmaliOutput` ties its output directory to `SmaliPath` |
| Artifacts.CfrArgs | app/src/main/java/com/pranav/java/ide/MainActivity.java:319-329 | the decompiler's five arguments; the definition is the contract; `SourceViewerReadsCfrOutput` and `CfrUsesProvisionedJar` tie them to the class file, the output directory and the provisioned android.jar |
| Artifacts.ArtifactsOfDescriptor | app/src/main/java/com/pranav/java/ide/MainActivity.java:286-291 | for a class listed from `L` + s + `;` with no `.` in s, the smali, class and decompiled files are named by s itself |
| Artifacts.ArtifactsDistinct | app/src/main/java/com/pranav/java/ide/MainActivity.java:318-329 | distinct class names without `/` have distinct smali, class and decompiled files |
| Artifacts.SmaliViewerReadsBaksmaliOutput | app/src/main/java/com/pranav/java/ide/MainActivity.java:271-291 | the smali file read lies in baksmali's output directory and ends in `.smali`, and baksmali's input is in the build directory |
| Artifacts.SourceViewerReadsCfrOutput | app/src/main/java/com/pranav/java/ide/MainActivity.java:318-346 | the decompiler reads the class file and the source file read lies in its output directory and ends in `.java` |
| Artifacts.InfixDetermined | app/src/main/java/com/pranav/java/ide/MainActivity.java:379 | a path built as directory, name and extension determines the name |
| Provisioning.AndroidJar | app/src/main/java/com/pranav/java/ide/MainActivity.java:126 | the android.jar path; the definition is the contract; `JarsDiffer`, `RunOnlyAdds` and `CfrUsesProvisionedJar` use it |
| Provisioning.LambdaStubsJar | app/src/main/java/com/pranav/java/ide/MainActivity.java:130 | the lambda stubs path, with its extra `/` as written; the definition is the contract; `JarsDiffer` proves it differs from the android.jar path |
| Provisioning.JavaVersion | app/src/main/java/com/pranav/java/ide/MainActivity.java:131-134 | the stored `javaVersion`, `"7.0"` when none is stored; the definition is the contract; `StubsOnlyForJava8` proves the default never copies the stubs |
| Provisioning.Plan | app/src/main/java/com/pranav/java/ide/MainActivity.java:126-143 | android.jar is unpacked exactly when absent, and the stubs are copied exactly when absent with setting `"8.0"`, unpacking first |
| Provisioning.Disk.Provision | app/src/main/java/com/pranav/java/ide/MainActivity.java:124-143 | the run does what `Plan` says and adds what `AfterRun` says: the stubs file is present after a copy that succeeded or failed while writing, and absent after one that failed before the output file existed (reading the bundled jar, or creating the output); it reports an error exactly when a planned copy fails |
| Provisioning.JarsDiffer | app/src/main/java/com/pranav/java/ide/MainActivity.java:126-130 | the android.jar path and the lambda stubs path are different files |
| Provisioning.RunOnlyAdds | app/src/main/java/com/pranav/java/ide/MainActivity.java:126-143 | a run removes no file and leaves android.jar present |
| Provisioning.SecondRunIdle | app/src/main/java/com/pranav/java/ide/MainActivity.java:126-143 | after a run whose copy (if any) created the stubs file, whether it then succeeded or failed while writing, the next run does nothing, so a truncated file is never replaced |
| Provisioning.SecondRunRetriesCopy | app/src/main/java/com/pranav/java/ide/MainActivity.java:130-141 | after a copy that failed before the output file existed (reading the bundled jar, or creating the output), the next run retries the copy and nothing else |
| Artifacts.CfrUsesProvisionedJar | app/src/main/java/com/pranav/java/ide/MainActivity.java:326 | the decompiler's extra class path is the android.jar path that provisioning unpacks |
| Provisioning.StubsOnlyForJava8 | app/src/main/java/com/pranav/java/ide/MainActivity.java:131-134 | with no stored setting, or one other than `"8.0"`, the stubs are never copied and their presence does not change |

## Left out

- The Android user interface is not modelled: lifecycle, toolbar, drawer, dialogs, snackbars, clipboard and editor set-up. It is presentation only.
- `compile()` and the compile task thread, including interruption when the activity is destroyed, are not modelled. They are concurrency.
- The background executor is not modelled. Nor is the race where baksmali and the decompiler run asynchronously while their output file is read back at once. They are concurrency.
- In `getClassesFromDex`, the compile started when `classes.dex` is missing, and its race with loading, are not modelled. A dex file that cannot be loaded is modelled as an absent descriptor table (`None`).
- dex parsing (dexlib2), baksmali, the CFR decompiler, the class file disassembler, the code formatter, the zip extraction and the byte copying are foreign code whose behaviour is not visible. Descriptors are a parameter, and the tools are reduced to the paths and command lines they are given.
- Provisioning.Disk.Provision: the unpacking of `android.jar` always succeeds, because the zip utility is not part of this model. How the stubs copy ends is a parameter: written, failed before the output file exists, while reading the bundled jar or creating the output (no file), or failed while writing after the file was created (a truncated file is left). Where in the write a failure happens is not modelled beyond that.
- Reading the smali and decompiled files (and the "Cannot read file" error) is not modelled: it is file I/O. The model stops at the path that is read.
- The class-path indexer persistence is not modelled: it is storage I/O.
- The process-wide crash handler (`ApplicationLoader.kt`) and the build configuration are not part of this model.
- JavaStrings.Trim: it trims every character up to U+0020, as Java's `String.trim` does. Java strings are UTF-16, and surrogate pairs are not modelled apart from other characters.
