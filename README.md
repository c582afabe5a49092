# Lightmove, modelled in Dafny

Lightmove has two tools that share one purpose.

- **The organiser** (`lightmove.py`) copies every regular file of a source tree into `dest/YYYY/YYYY-MM-DD/`, chosen by the file's local modification date.
  - It can filter the files by extension and by size.
  - It can skip a file when a file of the same size already stands at the destination.
  - A dry run copies nothing but still counts the files.
  - After each copy it hashes the copy with xxh3-64 in 8192-byte chunks.
  - It appends `"<digest>  <name>\n"` to the folder's `checksums.txt`, then `"<digest>  <YYYY/YYYY-MM-DD/name>\n"` to the root's `hashes.txt`. Every run that is not a dry run first resets `hashes.txt` to a two-line header.
  - A `ProcessingStats` object counts total, successful and failed files and the bytes copied.
- **The verifier** (`verify.py`) finds every `checksums.txt` under a directory and reads each one line by line.
  - It splits each line into a digest and a name, re-hashes the named file in the record's folder, and logs one of `MATCH`, `MISMATCH`, `MISSING` or `INVALID LINE`.
  - It ends the log with a `SUCCESS` or `ERROR` summary and the elapsed time.

The model works on an abstract disk: data files with their bytes and date, a set of directories, and record files held as the list of lines written to them.

- The filesystem is a class, `Storage.FileSystem`. The processing counters (`Pipeline.ProcessingStats`) and the verifier's log and `HAS_ERRORS` flag (`Verify.Verifier`) are classes too. Their methods update them in place.
- Each method is proved against a function that states the same step on values (`Process`, `RunSteps`, `Organize`, `Fold`, `Scan`). The properties are lemmas about those functions.
- The xxh3 digest is a parameter `hash: seq<byte> -> string`.
- The environment's own I/O errors (a full disk, a permission refused) come from a fault oracle: one `Fault` per call, and a `nat -> Fault` plan for a run.
- Failures that follow from the disk itself are modelled explicitly:
  - a source that has vanished;
  - `mkdir` meeting a regular file;
  - `copy2` onto the source itself, or onto a directory that already holds a directory of the source's name;
  - a directory standing at the destination file's path: `copy2` copies into it, and the checksum of the destination then fails on the directory, leaving that copy behind;
  - a record line naming a directory.

Every run that is not a dry run truncates `hashes.txt` to its header first (`Python/lightmove.py:173-175`). So a second `--skip-existing` run does not leave the records as they were. `Batch.RerunWithAllSkippedResetsGlobalRecord` proves it: the folder records survive, but the global record loses the earlier run's lines.

`Python/lightmove.py` and `lightmove/lightmove.py` are the same file; rows below cite the former.

## Model

| member | source | states |
|---|---|---|
| Storage.FileSystem.MakeFolders | Python/lightmove.py:126 | `mkdir(parents=True, exist_ok=True)` succeeds exactly when there is no fault and no regular file stands on the folder's ancestor chain; then every ancestor is a directory; files and records are never touched |
| Storage.FileSystem.Copy2 | Python/lightmove.py:127 | `copy2` writes to `dst`, or to `dst / name` when `dst` is a directory; it succeeds exactly when there is no fault, the source exists, is not that path, and that path is not a directory; then that path holds the source's bytes and date and nothing else changes |
| Storage.FileSystem.Append | Python/lightmove.py:129-132 | an append-mode write adds exactly one line at the end of the record, creating it if absent, and changes nothing on a fault |
| Storage.FileSystem.Rewrite | Python/lightmove.py:174-175 | a write-mode open replaces the record's lines by the given ones; data files and directories are untouched |
| Settings.MakeConfig | Python/lightmove.py:164-171 | flags and size bounds are copied; the extension filter is absent exactly when `--file-type` is absent or empty, and otherwise holds exactly the lowercased extensions given |
| Checksum.ReadChunk | Python/lightmove.py:106 | `read(8192)` returns at most 8192 bytes, the next bytes of the file; it is empty exactly at end of file, and short only when it reaches the end |
| Checksum.ComputeChecksum | Python/lightmove.py:102-108 | the digest is the hash of the whole content; the chunks fed to the hasher concatenate to the content, each holds 1 to 8192 bytes and all but the last are full (`Python/verify.py:12-26` is the same loop) |
| Destination.GetDestinationPath | Python/lightmove.py:110-116 | the folder is `dest` plus exactly two components, and the destination file is that folder plus the file's base name |
| Destination.FolderIsSubfolder | Python/lightmove.py:113-114 | the two new components, joined with "/", are `strftime("%Y/%Y-%m-%d")` of the date |
| Destination.RelativeNameIsRelativePath | Python/lightmove.py:132 | the name written to `hashes.txt` is the destination file's path relative to `dest` |
| Destination.SubfolderRoundTrip | Python/lightmove.py:113 | the folder name determines the date: reading `YYYY/YYYY-MM-DD` back gives the date it was made from |
| Destination.ParsedSubfolderIsCanonical | Python/lightmove.py:113 | the reverse: any string that reads back as a date is exactly that date's folder name |
| Destination.SameDestinationIff | Python/lightmove.py:114-115 | two files get the same destination file exactly when they have the same date and base name |
| Destination.SameFolderIff | Python/lightmove.py:113-114 | two files get the same destination folder exactly when they have the same date |
| RecordLine.ParseLine | Python/verify.py:43-44 | `strip().split(maxsplit=1)` fails (ValueError) exactly when the stripped line holds no whitespace; on success the digest is one word and the name has no surrounding whitespace |
| RecordLine.ParseOfShape | Python/verify.py:43 | any line made of a word, a run of whitespace, a trimmed name and trailing whitespace parses back to that word and name |
| RecordLine.ParseFormatRoundTrip | Python/lightmove.py:130 | the line the organiser writes parses back to the same digest and name when the digest is one word and the name is trimmed |
| RecordLine.ParsedLineShape | Python/verify.py:43 | every line that parses is, once stripped, its digest, a non-empty run of whitespace and its name |
| RecordLine.BlankLineRefused | Python/verify.py:43-44 | a blank or all-whitespace line does not parse |
| RecordLine.FormatLine | Python/lightmove.py:130 | the record line is one line: the digest first, the name after two spaces, and a final newline; `ParseFormatRoundTrip` and `NameReadsBackStripped` are its inverse |
| RecordLine.NameReadsBackStripped | Python/lightmove.py:130 | any base name reads back stripped of its surrounding whitespace; a name of only whitespace leaves a line that does not parse and strips to the digest |
| RecordLine.LeadingSpaceNameReadsBackShortened | Python/lightmove.py:130 | a base name starting with a space is written, but reads back without that space |
| FileFilter.Suffix | Python/lightmove.py:180 | `Path.suffix` is empty, or a proper tail of the name that starts at its last dot and holds no other dot; it is non-empty exactly when the last dot is neither the first nor the last character |
| FileFilter.Keep | Python/lightmove.py:180-182 | with no extension set and no non-zero bound every file is kept; a non-zero minimum above a non-zero maximum keeps nothing |
| FileFilter.FilterFiles | Python/lightmove.py:178-183 | the filtered list holds exactly the scanned files passing the extension and size tests, in scan order, and is no longer than the scan |
| FileFilter.ZeroBoundIsNoBound | Python/lightmove.py:181-182 | a size bound of 0 is falsy and so is no bound at all; `--max-size 0` admits every file |
| FileFilter.ExtensionMatchIgnoresCase | Python/lightmove.py:167 | `--file-type .TXT` keeps every file whose suffix lowercases to `.txt` |
| FileFilter.ExtensionWithoutDotMatchesNothing | Python/lightmove.py:180 | `--file-type txt` drops every file that has a suffix, since a suffix starts with the dot |
| Pipeline.ProcessingStats.constructor | Python/lightmove.py:30-37 | every counter starts at zero |
| Pipeline.Process | Python/lightmove.py:118-140 | one call never deletes a file, directory or record, never drops a line of a record, and leaves `total_files` alone |
| Pipeline.CopyAndRecord | Python/lightmove.py:127-140 | copy, checksum and appends end in a copy or a failure, add no directory, delete nothing and only append to records |
| Pipeline.Record | Python/lightmove.py:129-140 | the appends end in a copy or a failure, leave data files and directories alone and only append to records |
| Pipeline.ProcessFile | Python/lightmove.py:118-140 | the new disk and counters are those of `Process`, and the call returns True exactly when the outcome is not a failure |
| Pipeline.CopyAndRecordFile | Python/lightmove.py:127-140 | copy, checksum of the copy and both appends leave disk and counters as `CopyAndRecord` states, including the copy `copy2` leaves inside a directory standing at the destination before the checksum fails |
| Pipeline.CopyOntoDirectoryFails | Python/lightmove.py:126-140 | with a directory at the destination file's path nothing is recorded; without a fault the call fails after copying the source into that directory under its own name, with one failure counted |
| Pipeline.RecordFile | Python/lightmove.py:129-136 | the two appends and the final counter updates, as `Record` states |
| Pipeline.SkipChangesNothing | Python/lightmove.py:122-124 | a call is skipped exactly when skip-existing is set and a same-size file already stands at the destination; a skip changes neither disk nor counters |
| Pipeline.DryRunCountsOnly | Python/lightmove.py:125-134 | a dry run never changes the disk or the byte count and never copies; a file that is not skipped counts one success and nothing else |
| Pipeline.CopyRecordsOnce | Python/lightmove.py:126-134 | a copy puts the source at the destination, adds exactly one line to the folder record and one to `hashes.txt`, both carrying the hash of the copy; it leaves every other record as it was, creates the folder chain, and adds one success and the source's size |
| Pipeline.FailureCountsOnce | Python/lightmove.py:137-140 | a failure adds one failure and nothing else to the counters; the call returns True exactly when the failure count did not move |
| Pipeline.FailureNeverRecordsGlobally | Python/lightmove.py:131-132 | a failed call leaves `hashes.txt` as it was |
| Pipeline.CountersGrow | Python/lightmove.py:118-140 | no counter decreases, `total_files` is untouched, and successes plus failures grow by at most one |
| Pipeline.StepSummary | Python/lightmove.py:118-140 | by outcome: successes grow for a dry run or copy, failures for a failure, a skip or dry run leaves the disk alone, and `hashes.txt` gains one line exactly for a copy while keeping the lines before it |
| Pipeline.LastWriteWins | Python/lightmove.py:115-130 | two files with the same name and date share one destination: the second copy replaces the first, and the folder record keeps a line for each, in order |
| Batch.Organize | Python/lightmove.py:172-186 | the run on values: header reset unless dry run, filter, `total_files`, then every filtered file in order; it has no contract of its own, and the `Batch` lemmas below state its properties |
| Batch.ProcessFiles | Python/lightmove.py:142-154 | after every file has been processed once, in order, the disk and counters are those of `RunSteps` |
| Batch.OrganizeRun | Python/lightmove.py:172-186 | header reset, filter, `total_files` and the run leave the disk and a fresh counter object as `Organize` states |
| Batch.StepSummarised | Python/lightmove.py:118-140 | one call appends one outcome and moves the run's counters, disk and `hashes.txt` as that outcome says |
| Batch.RunIsChain | Python/lightmove.py:144-154 | every consecutive pair of states in a run is related by one such call |
| Batch.RunTally | Python/lightmove.py:144-154 | each processed file has exactly one outcome; successes grow by the dry runs and copies, failures by the failures |
| Batch.EveryFileAccountedFor | Python/lightmove.py:184-186 | after a run, `total_files` is the size of the filtered list and equals successes plus failures plus skips |
| Batch.CountersNeverDecrease | Python/lightmove.py:144-154 | within a run no counter ever decreases, and `total_files` is constant |
| Batch.DryRunLeavesDisk | Python/lightmove.py:173-175 | a dry run leaves the disk exactly as it found it: no folder, no copy, and no record written or truncated |
| Batch.GlobalRecordGrowsPerCopy | Python/lightmove.py:131-132 | during a run `hashes.txt` keeps its earlier lines and gains exactly one line per copied file |
| Batch.GlobalRecordIsHeaderPlusCopies | Python/lightmove.py:173-175 | unless dry run, `hashes.txt` ends as the header followed by one line per file copied in this run |
| Batch.RerunWithAllSkippedResetsGlobalRecord | Python/lightmove.py:173-175 | a run in which every file is skipped leaves data, directories and folder records unchanged, but truncates `hashes.txt` to its header |
| Verify.Classify | Python/verify.py:43-71 | a line is invalid exactly when it does not parse; otherwise its verdict carries the parsed name, and it is a match exactly when the named file exists in the record's folder and hashes to the parsed digest |
| Verify.LogLine | Python/verify.py:45-67 | each verdict is logged as one newline-terminated line |
| Verify.Fold | Python/verify.py:41-71 | reading one record logs at most one line per record line, and exactly one per line when it reads to the end |
| Verify.Scan | Python/verify.py:103-105 | reading the records found logs at most one line per record line, and exactly one per line when no record aborts |
| Verify.Verifier.constructor | Python/verify.py:10 | `HAS_ERRORS` starts false, and the log is empty |
| Verify.Verifier.VerifyLine | Python/verify.py:42-71 | one line's verdict is logged and sets the flag unless it is a match; a line naming a directory writes nothing, since the exception comes first |
| Verify.Verifier.VerifyRecordFile | Python/verify.py:28-71 | reading a record file appends the log lines of `Fold` over its verdicts, sets the flag as `Fold` does, and reports whether it got to the end |
| Verify.Verifier.Run | Python/verify.py:84-117 | a non-directory root changes nothing; if no record is found the log is cleared; otherwise the log is the scan's lines, followed by the summary and elapsed time unless a record file aborted the run |
| Verify.FoldStopsAt | Python/verify.py:41-60 | once a line has aborted reading, later lines change nothing |
| Verify.AbortIsFinal | Python/verify.py:103-105 | once a record file has aborted the run, later record files change nothing |
| Verify.FoldReach | Python/verify.py:41-71 | reading stops exactly at the first line naming a directory; every line before it is logged |
| Verify.FoldLog | Python/verify.py:41-71 | the log holds, in order, the log line of each verdict read |
| Verify.FoldErrors | Python/verify.py:47-71 | the flag is set exactly when some logged verdict is not a match |
| Verify.CompletedScan | Python/verify.py:103-105 | for a scan that is not aborted: the flag is set exactly when some line of some record file is not a match, and the log has one line per record line |
| Verify.BlankLineIsInvalid | Python/verify.py:43-48 | a blank line is logged as an invalid line |
| Verify.LoneWordIsInvalid | Python/verify.py:43-48 | a line holding a single word is invalid and reported as that word |
| Verify.WrittenLineVerdict | Python/verify.py:50-71 | a well-formed line is judged MISSING when nothing is at the path, aborts on a directory, is a MATCH when the file's hash equals the digest, and a MISMATCH otherwise |
| Verify.MatchLinesAreMatches | Python/verify.py:53-67 | a log line starts with `MATCH: ` exactly when its verdict is a match |
| Verify.VerifyTree | Python/verify.py:73-117 | SUCCESS exactly when the directory exists, some record is found, nothing aborts and every line matches; ERROR in the same conditions with a non-match; a finished log has one line per record line plus the two closing lines |
| CopyThenVerify.CopiedFileVerifies | Python/lightmove.py:127-130 | for a base name without leading or trailing whitespace and a one-word digest: right after a copy, the last line of the folder record verifies as a match for the copied file |
| CopyThenVerify.UntrimmedNameVerifiesStripped | Python/lightmove.py:127-130 | for a base name with leading or trailing whitespace: the copy's line is judged as the line of the stripped name would be, never as a match for the copy's own name, and as an invalid line when the name is only whitespace |
| CopyThenVerify.OverwrittenLineMismatches | Python/lightmove.py:115-130 | for a first base name without leading or trailing whitespace and one-word digests: after two same-name, same-date copies with different digests, the first line of the folder record verifies as a mismatch and the second as a match |

## Left out

- The thread pool: files are processed one after another, in submission order. Races between workers are not modelled: the shared counters, appends to one record file, and two copies onto one destination.
- The start time, elapsed time and transfer rate: the verifier's elapsed time is a text parameter.
- The xxh3-64 algorithm itself: the hash is a parameter, assumed deterministic.
- Time zones and `datetime.fromtimestamp`: a file carries its local date. Years are limited to 1000-9999, since `%Y` below 1000 depends on the platform.
- Metadata copied by `copy2` other than the modification date.
- `rglob`: the scanned files and the records found are given as lists in traversal order. A found `checksums.txt` is taken to be a record file, not a directory of that name.
- Logging, console output, colours, `tqdm`, `show_progress`, directory prompts and argument parsing. The `parallel_jobs` setting is also out, as are the `lightmove` log file and the verification log file sitting in the tree.
- `KeyboardInterrupt` and the outer exception handler of the organiser's `main`.
- Partial copies: `copy2` either copies everything or fails.
- Files named `checksums.txt` or `hashes.txt` in the source tree: record files live in their own part of the disk.
- Names containing "/" or line breaks, and the newline translation of text mode.
- Failures to open or write a record file or the verification log other than the faults given by the oracle.
- The verifier's input prompt and the quote stripping of the typed path.
- A directory standing at the destination file's path is never taken as "existing" by skip-existing, since the size of a directory depends on the platform.
- I/O errors while the verifier hashes a listed data file (a permission refused, a read error): in `verify.py` they end the run without a summary, as a directory does, but `Classify` has no fault for them.
- POSIX paths only: the name written to `hashes.txt` joins components with "/", where Windows would use `\`.
- Settings.Lower: only ASCII letters are lowercased, not the full Unicode case mapping of `str.lower`.
- Batch.CountersNeverDecrease: stated between two points of one run's trace, not between two separately computed runs of different lengths.
