# The bridge's hard parts, modelled and proved in Dafny

The oschess bridge serves chess databases from a user's machine. This project models the
parts of it that are easiest to get wrong, in the form the program has them, and proves what
its code and its comments promise. `dafny verify dfyconfig.toml` checks all of it.

**The checksum of every index file** (`indexdir.rs`). `Binary` is arithmetic of polynomials
over GF(2) on words of any width. `Crc32` defines the CRC one bit at a time. `Crc32Tables`
fills the eight tables and takes eight bytes at a time. `Crc32Folding` folds 64 bytes at a
time by carry-less multiplication and ends with a Barrett step. All of them are the
bit-at-a-time CRC for every state and every input.

**The settings file** (`config.rs`, `files.rs`). `SettingsFile` writes it, `SettingsParse`
reads it; each loop is proved against a function. What is read is exactly a grammar's, and as
what it means, whoever wrote it: `SettingsStrings` for strings, `SettingsSegments` for comments
and closing brackets, `SettingsValues` for values, `SettingsText` for the whole file and its first
line at fault, and `SettingsByHand` for arrays on one line or several with comments.
`SettingsLines`, `SettingsLexers` and `SettingsRoundTrip` show that what is written is read back;
`SettingsSpoiled` and `SettingsHazard` show that a value holding the marker of a value put in later
is not, which makes the round trip an if and only if. The comment on `render` promises the file for
a configuration without this condition; the model follows the code. `SettingsSaving` takes the
lock, the temporary files, the flushes, the renames and crashes step by step, for changes of any
kind, from any file there is at first: no saved change is lost, exactly as long as what is saved,
and that first file, reads back.

**Text written and read** elsewhere. `Calendar` has the two calendar computations of `log.rs`
and `stockfish_updates.rs`, which were written apart and are inverse; the second also reads
dates no calendar has, and leap seconds; `CalendarText` says exactly which texts are read and
which seconds are written. `Json` and
`JsonValues` have the JSON writer with a reader of RFC 8259, and `JsonBytes` its bytes with a
reader of RFC 3629. `HttpFraming` takes requests from
a stream that arrives in pieces of any size, and `HttpWriting` writes answers in parts and
lines as chunks. `Diagnostics` takes the paths out of a log line, and `DiagnosticsPaths` says what
a path is.

**Protocols**, each a machine of interleaved steps with an invariant that every step keeps and
theorems over every run. `TargetSlot` is the lease of a shared build folder between processes,
with descriptors inherited by children, crashes anywhere, and a turn from an exclusive to a
shared lock that drops the one before it takes the other. `EngineChoices`, with `Versions`, is
the order of engine choices, installations, updates and removals under three locks.
`EngineTurns` passes one engine process between analyses by tickets. `Foreground` counts work
that can be set aside, with a condition variable. `StoreLedger`, with `StoreVersion`, reserves
versions among concurrent runs that lose answers. Beside what no interleaving breaks, each has
what its operations do when no other is in the way, from every reachable state: `TargetSlotAlone`,
`EngineChoicesAlone`, `EngineTurnsAlone`, `ForegroundAlone`, `StoreLedgerAlone` and
`SettingsSavingAlone`. Where a promise needs a hypothesis the model
states it, gives a run without it in which the promise fails, and says exactly when it holds:
work set aside within an aside or more ended there than begun, build floors that differ, a
choice made before a look takes its ticket, an engine replaced before a ticket is taken, a
client whose analysis ends untold, a head that ends at the size limit, a value that holds a
marker.

**Parallel counting and queues**. `TopGames`, `IndexOracle` and `OracleScan` merge the threads'
counts, best games and fingerprints over batches of records: for any number of threads and any
order it is one pass, and `OracleCounts` says what that pass counts: for each position the games
that reach it, one by one. `Reports` is the outbox of failure reports, cut to the latest within
two caps.

`Text`, `Hex`, `Division` and `Wrappers` hold what several of these share.

## Model

| member | source | states |
|---|---|---|
| `Crc32.BitwiseAppend` | crates/bridge/src/indexdir.rs:175-179 | Continuing a CRC over `a` and then over `b` is one CRC over both |
| `Crc32.RunLinear` | crates/bridge/src/indexdir.rs:296-298 | The shift register is linear over xor: the steps of a sum are the sum of the steps, which every fast form rests on |
| `Crc32.RunLoad` | crates/bridge/src/indexdir.rs:292-298 | A whole message with the state added to its first bits runs to the message's CRC |
| `Crc32Tables.EntryIsZeroBytes` | crates/bridge/src/indexdir.rs:301-305 | What an entry `[k][i]` stands for: the register after byte `i` and `k` zero bytes |
| `Crc32Tables.BuildTables` | crates/bridge/src/indexdir.rs:292-307 | The tables the loops fill hold in every `[k][i]` the register after byte `i` and `k` zero bytes |
| `Crc32Tables.Seed` | crates/bridge/src/indexdir.rs:294-299 | The eight shifts of a table's seed are the bit-at-a-time register over one byte |
| `Crc32Tables.FillColumn` | crates/bridge/src/indexdir.rs:301-305 | One column: seven entries, each from the one before it |
| `Crc32Tables.EightAtOnce` | crates/bridge/src/indexdir.rs:195-204 | Eight bytes at once are eight bytes one after the other, for every state |
| `Crc32Tables.CrcTables` | crates/bridge/src/indexdir.rs:191-210 | The table form equals the bit-at-a-time form for every state and every sequence of bytes |
| `Crc32Folding.Constants` | crates/bridge/src/indexdir.rs:227-235 | Each folding constant is the power of x its place needs, and the polynomial is the one of the tables |
| `Crc32Folding.FoldRuns` | crates/bridge/src/indexdir.rs:277-281 | A register folded `far` bits ahead counts there as it would have where it was |
| `Crc32Folding.FoldQuad` | crates/bridge/src/indexdir.rs:252-256 | One turn of the main loop: four lanes folded 64 bytes ahead stand for the register after those bytes |
| `Crc32Folding.Merge` | crates/bridge/src/indexdir.rs:257-259 | The four lanes folded into one stand for what the four stood for |
| `Crc32Folding.FoldSingles` | crates/bridge/src/indexdir.rs:260-262 | The blocks after the last four, each folded into the one lane |
| `Crc32Folding.MuInverts` | crates/bridge/src/indexdir.rs:233-235 | The product by the Barrett constant and then by the polynomial gives every 32-bit value back |
| `Crc32Folding.BarrettRuns` | crates/bridge/src/indexdir.rs:270-274 | The Barrett step is the register's last 32 shifts |
| `Crc32Folding.Reduce` | crates/bridge/src/indexdir.rs:263-274 | The reduction of 128 to 64 to 32 bits is 128 shifts of the register |
| `Crc32Folding.Update` | crates/bridge/src/indexdir.rs:241-275 | Folding over at least 64 bytes continues the bit-at-a-time CRC over the whole blocks, and leaves the bytes after them |
| `Crc32Folding.Crc32Update` | crates/bridge/src/indexdir.rs:175-188 | Whether or not the processor folds, the result is the bit-at-a-time CRC of all bytes, for every state and length |
| `Crc32Folding.Checksum` | crates/bridge/src/indexdir.rs:169-173 | The whole input's CRC, from all ones: its number and the register's add up to `u32::MAX`, so every one of the 32 digits is the opposite one; nothing's CRC is 0, and the check's nine digits have the standard check value |
| `Crc32Folding.Opposite` | crates/bridge/src/indexdir.rs:171-173 | For every value of 32 bits the inverted one fits them too and adds up with it to `u32::MAX` |
| `Crc32Folding.InTwoPieces` | crates/bridge/src/indexdir.rs:175-188 | An input fed in two pieces, each by whichever form, has the CRC of the whole |
| `SettingsFile.Quote` | crates/bridge/src/config.rs:332-351 | The loop writes the string literal when it can be, else with each character's escape |
| `SettingsFile.Readable` | crates/bridge/src/config.rs:330-335 | A string is written literally exactly when it holds no single quote and no control character |
| `SettingsLines.RenderIsLines` | crates/bridge/src/config.rs:275-306 | With no later marker in a value the four replacements each change their own line alone: the file is the template's lines with the values' in place |
| `SettingsParse.StripComment` | crates/bridge/src/config.rs:441-459 | The loop cuts a line at the first `#` outside strings |
| `SettingsParse.Closes` | crates/bridge/src/config.rs:461-477 | The loop finds whether a bracket closes outside strings |
| `SettingsParse.ParseString` | crates/bridge/src/config.rs:507-535 | The loop reads one quoted string and what follows it, or refuses it as the program does |
| `SettingsParse.ParseValue` | crates/bridge/src/config.rs:479-505 | The loop reads a value: an array's items and commas, a string, or a number within 64 bits |
| `SettingsParse.ParseEntry` | crates/bridge/src/config.rs:400-437 | One line, with the lines its array continues over: the settings changed, or the line at fault |
| `SettingsParse.ParseText` | crates/bridge/src/config.rs:396-439 | The whole text: the settings, or the first line at fault |
| `SettingsStrings.StringGrammar` | crates/bridge/src/config.rs:507-537 | A string is read if and only if a grammar of quoted strings has it, single quotes round any text without one, or double quotes round characters, four escapes and `\u` with four hexadecimal digits of either case, and as what that means |
| `SettingsSegments.CommentGrammar` | crates/bridge/src/config.rs:441-459 | A line is cut exactly at the first `#` after whole strings and characters outside them, and is else left as it is |
| `SettingsSegments.CloseGrammar` | crates/bridge/src/config.rs:461-477 | An array's text is closed if and only if a `]` follows whole strings and characters outside them without one |
| `SettingsValues.ArrayGrammar` | crates/bridge/src/config.rs:479-496 | An array is read if and only if it is strings with spaces anywhere between, a comma after each but perhaps the last, and as what they mean in order |
| `SettingsValues.StringValueGrammar` | crates/bridge/src/config.rs:497-504 | A string is a value if and only if nothing but spaces follows it |
| `SettingsValues.NumberGrammar` | crates/bridge/src/config.rs:505 | A number is read if and only if it is a sign or none and digits, zeros before it or not, within 64 bits, and as that number |
| `SettingsText.FileGrammar` | crates/bridge/src/config.rs:396-439 | The whole file is read if and only if it is settings, each of a key and a value that fits it, an array over as many lines as close it, with comments and blank lines between; and each of the settings read is what was set last for its key, or the default |
| `SettingsText.RefusedAtFault` | crates/bridge/src/config.rs:396-439 | A file that is not read is refused at its first line at fault: all before it are settings, and no setting that fits its key begins there |
| `SettingsText.LinesGrammar` | crates/bridge/src/config.rs:399-400 | A line ends at a line feed or a carriage return and line feed; the last needs no end |
| `SettingsByHand.OneLine` | crates/bridge/src/config.rs:482-496 | A file of one array on one line, its items as `quote` writes them and no comma after the last, is read as the defaults with those items |
| `SettingsByHand.SeveralLines` | crates/bridge/src/config.rs:408-414 | So is one over several lines with any comment on each, and no comma after the last |
| `SettingsLexers.QuotedLexes` | crates/bridge/src/config.rs:441-477 | The three lexers agree on where a quoted string ends, whatever it holds, and it reads as itself |
| `SettingsRoundTrip.RenderedLinesAreLines` | crates/bridge/src/config.rs:275-306 | No value breaks its line: every line written is read as that line |
| `SettingsRoundTrip.ArrayReads` | crates/bridge/src/config.rs:411-416 | An array's lines put together read as its items |
| `SettingsRoundTrip.ListEntry` | crates/bridge/src/config.rs:408-423 | An array over many lines is one entry, which gives its list and ends at its last line |
| `SettingsRoundTrip.UnmarkedRoundTrip` | crates/bridge/src/config.rs:275-306 | Without a later marker in a value the file reads back exactly when its numbers are in range |
| `SettingsSpoiled.SpoiltString` | crates/bridge/src/config.rs:507-535 | A string in which a replacement changed a character is no longer read as itself |
| `SettingsSpoiled.SpoiltFile` | crates/bridge/src/config.rs:397-439 | A file with such an item in a list is refused, or read with another list, and no later line puts it right |
| `SettingsHazard.ItemCut` | crates/bridge/src/config.rs:292-296 | An item that holds a later marker is cut where the first one was |
| `SettingsHazard.OriginsCut` | crates/bridge/src/config.rs:285-296 | With a later marker in an origin the file does not read back |
| `SettingsHazard.DatabasesCut` | crates/bridge/src/config.rs:286-296 | With the web site's marker in a database and another site set, the file does not read back |
| `SettingsHazard.RoundTrip` | crates/bridge/src/config.rs:272-306 | For every setting: it reads back from its file if and only if its numbers are in range and no value holds the marker of a value put in later |
| `SettingsHazard.DefaultRenders` | crates/bridge/src/config.rs:586-589 | The defaults render as the template |
| `SettingsHazard.TemplateReads` | crates/bridge/src/config.rs:559-562 | The template parses to the defaults |
| `SettingsHazard.EscapeMarks` | crates/bridge/src/config.rs:343-347 | A concrete origin whose control character's escape completes a marker does not survive a save |
| `SettingsSaving.StepKeeps` | crates/bridge/src/config.rs:146-170 | Every step of every thread, whatever it changes, and a crash at any point, keeps: the file absent, the first one as it was, or one whole rendering of the settings saved last; one writer, temporary files its writers' own |
| `SettingsSaving.WholeFile` | crates/bridge/src/files.rs:1-5 | In every state of every run, whatever text the file held at first, it is absent and nothing was saved, or that text as it was, the template in place of none, or the whole rendering of the settings saved last |
| `SettingsSaving.NothingLost` | crates/bridge/src/config.rs:317-328 | In every run, in all states so far the file reads as the fold of all changes saved, in lock order, from what the first file reads as on, if and only if the first file, when there is one, can be read and each settings saved so far has its numbers in range and no value with the marker of a later one |
| `SettingsSaving.UnreadableStays` | crates/bridge/src/config.rs:317-328 | A first file that cannot be read is never written over: nothing is saved in any run, and the file keeps its text |
| `SettingsSaving.FolderLands` | crates/bridge/src/config.rs:317-320 | A folder added to settings that a save gives back lands if and only if no origin holds the databases' marker, when it is the first folder, and it does not hold the web site's, when another site is set |
| `SettingsSaving.ChangesAdd` | crates/bridge/src/config.rs:321-328 | A save adds one change, by the holder of the lock: the settings saved are the change applied to what the file reads as in that very state, so nothing came between the reading and the saving |
| `SettingsSaving.FileStays` | crates/bridge/src/files.rs:24-38 | Once there, the file is never missing, whatever write or removal fails, and whatever a crash leaves of files not flushed |
| `SettingsSaving.OthersFilesStay` | crates/bridge/src/files.rs:34-68 | A temporary file that no thread of this process writes, such as one left by another, is never changed or removed |
| `SettingsSavingAlone.SavesChange` | crates/bridge/src/config.rs:321-328 | A change with no other thread in its way goes through whatever temporary names are taken: the file holds the settings it read, changed, whole, and no temporary file stays |
| `SettingsSavingAlone.MakesDefault` | crates/bridge/src/config.rs:154-170 | Without a file a change makes the default one whole first, and then reads it |
| `SettingsSavingAlone.LoadsDefault` | crates/bridge/src/config.rs:84-95 | A load where there is no file leaves the default one; where there is one it does nothing (`LoadsThere`) |
| `SettingsSavingAlone.LeavesUnreadable` | crates/bridge/src/config.rs:321-328 | A change of a file that cannot be read changes nothing |
| `SettingsSavingAlone.NamesOut` | crates/bridge/src/files.rs:40-68 | After 64 names that are taken the write gives up, and every file is as it was |
| `SettingsSavingAlone.WriteFailsAt` | crates/bridge/src/files.rs:24-38 | A write that fails anywhere removes its temporary file, or leaves it as far as it came, and changes no other |
| `TargetSlot.StepKeeps` | scripts/target_slot.py:187-353 | Every step of every process, at any point of the script and with crashes and inherited descriptors, keeps the lease's invariant |
| `TargetSlot.OneLease` | scripts/target_slot.py:233-253 | All holders of a folder carry one token, the folder's own, and so are of one worktree; none shares the lock with a process that holds it alone |
| `TargetSlot.TokenStays` | scripts/target_slot.py:236-241 | The folder's token is not replaced, nor emptied, while a holder lives |
| `TargetSlot.PreparesAlone` | scripts/target_slot.py:187-203 | While a folder is made right for a worktree no other process holds a lease of it |
| `TargetSlot.OwnBuilds` | scripts/target_slot.py:28-30 | A command of a lease finds only its own worktree's builds of its members, whoever used the folder before; the folder is its worktree's, or private |
| `TargetSlot.HeldByToken` | scripts/target_slot.py:284-292 | In every run a file becomes a lease's only while the folder carries its token: in a join that was told that token and finds it under the shared lock, or in the turn of the lease that drew it |
| `TargetSlot.TurnKept` | scripts/target_slot.py:240-250 | From its draw until its command runs a lease's token is the folder's after every step of any other process, though the turn drops the exclusive lock before it shares it, and no other lease is drawn meanwhile |
| `TargetSlot.LookRefuses` | scripts/target_slot.py:356-369 | A run in which a look at a folder no lease holds turns a new lease away |
| `TargetSlot.RefusedExactly` | scripts/target_slot.py:206-250 | In every reachable state a process at the gate can take a new lease if and only if no process holds one, none is looking at the folder and none has joined the lock without having compared its token, and is turned away if and only if it cannot |
| `TargetSlot.SweptUnheld` | scripts/target_slot.py:218-230 | A private folder is removed only when no process holds it, and no process ever holds it after that |
| `TargetSlotAlone.PrepareLeaves` | scripts/target_slot.py:187-203 | In every run, whatever others do meanwhile, from the look at a slot to its owner's file written: the slot is the worktree's, and in it is left nothing when it was too big or nothing in it could be told apart, everything when it was the worktree's own, and else everything but the worktree's members' builds |
| `TargetSlotAlone.Acquires` | scripts/target_slot.py:233-253 | From every reachable state in which no process holds the folder a process at the script's start can lease it: its token drawn and written, the lock shared, and the gate free after |
| `TargetSlotAlone.IsTurnedAway` | scripts/target_slot.py:206-215 | While any process holds the lock it is turned away, and all is as it was |
| `TargetSlotAlone.PreparesSlot` | scripts/target_slot.py:187-203 | A lease's `prepare` goes through by itself and leaves the slot so |
| `TargetSlotAlone.Spawns` | scripts/target_slot.py:336-346 | The command has a descriptor of the lease's file and the lease in its environment |
| `TargetSlotAlone.Joins` | scripts/target_slot.py:256-292 | A command inside a lease joins it when the lock can be shared and the folder carries its token, and then holds it by a file of its own; else, or when it waited long enough, it is to take a lease of its own, without the environment |
| `TargetSlotAlone.Forgets` | scripts/target_slot.py:384-410 | For another worktree than its lease's, or when the folder is gone, the script goes on without the lease's environment |
| `TargetSlotAlone.LosesItsLease` | scripts/target_slot.py:256-292 | In every run a process inside a lease goes on without it only for another worktree, without the folder, when the folder has another token, or when it waited long enough for the lock |
| `TargetSlotAlone.Exits` | scripts/target_slot.py:336-343 | A process that ends, anywhere, closes all its files, those only it held go with their locks, and its gate is free |
| `TargetSlotAlone.LooksOnce` | scripts/target_slot.py:218-230 | A look at a folder nobody holds leaves it as it was; a sweep of a private one nobody leases leaves nothing of it |
| `Versions.NewerIsStrict` | crates/bridge/src/stockfish.rs:198-213 | Newer is a strict order of versions, total but for zeros at the end |
| `Versions.NewerExactly` | crates/bridge/src/stockfish.rs:198-213 | A version is newer if and only if the first number in which the two differ is the greater, a number that is not written counting as zero |
| `EngineChoices.StepKeeps` | crates/app/src/choices.rs:58-173 | Every step of choices, installations, updates, removals and preference changes keeps the locks', the counter's and the builds' invariant |
| `EngineChoices.OneInstallation` | crates/app/src/choices.rs:137-151 | At most one installation runs, and none beside a removal |
| `EngineChoices.TicketFrom` | crates/app/src/choices.rs:153-156 | An installation's ticket is the count of saves at the step that took it |
| `EngineChoices.ReplacesNothingNew` | crates/app/src/choices.rs:118-133 | An installation saves its engine only if the choice was never written between its ticket and that save |
| `EngineChoices.LaterChoiceStands` | crates/app/src/choices.rs:164-172 | An installation that compares after a later choice was written is refused, and the choice stays |
| `EngineChoices.ReplacesWhatItRead` | crates/app/src/stockfish_updates.rs:195-222 | An update saves over no choice made since its look read the one it replaces, exactly when none was made before its ticket |
| `EngineChoices.ChoiceBeforeTicketLost` | crates/app/src/stockfish_updates.rs:203-217 | A run in which a look replaces a choice made between its reading and its ticket |
| `EngineChoices.ChosenIsThere` | crates/app/src/stockfish_updates.rs:229-241 | A chosen build of the bridge's is on disk in every state |
| `EngineChoices.OnlyOlderGo` | crates/app/src/stockfish_updates.rs:235-241 | Builds go one by one, each strictly older than the chosen one, with the option on and held on and all three locks held |
| `EngineChoices.UpdatesWhileOn` | crates/app/src/prefs.rs:82-88 | An update is chosen only while the option is on, held on by its thread |
| `EngineChoices.LocksInOrder` | crates/app/src/choices.rs:124-141 | A thread waits only for a lock after all it holds: installation, choice, preferences |
| `EngineChoices.NoDeadlock` | crates/app/src/choices.rs:58-141 | While any operation is under way some thread under way can take its next step |
| `EngineChoices.GoesOn` | crates/app/src/choices.rs:58-141 | A thread that is not waiting for a lock always has a next step |
| `EngineChoicesAlone.ChosenAsWished` | crates/app/src/stockfish_updates.rs:195-222 | In every run an engine that is written was asked for when its thread's operation began and accepted by a probe since: picked or installed by the user, or, for an update, found by that thread's last look, which read a build of the bridge's that is older |
| `EngineChoicesAlone.Chooses` | crates/app/src/choices.rs:58-71 | With no other operation under way a choice that is accepted and written is the engine and is counted; refused or not written, it leaves all as it was |
| `EngineChoicesAlone.InstallsOne` | crates/app/src/choices.rs:74-92 | So an installation: installed, accepted and written its build is there and chosen; refused or not written it is only there; failed, all is as it was |
| `EngineChoicesAlone.InstallsNone` | crates/app/src/choices.rs:144-151 | While another thread installs or removes, none begins |
| `EngineChoicesAlone.LooksUp` | crates/app/src/stockfish_updates.rs:195-213 | A look with the option on leaves an engine that is not the bridge's, goes on to the older builds when its own is no older than the newest, and else to the update |
| `EngineChoicesAlone.LooksNot` | crates/app/src/stockfish_updates.rs:200-202 | A look with the option off does nothing |
| `EngineChoicesAlone.UpdatesOne` | crates/app/src/choices.rs:97-133 | An update that waited, is accepted and written is chosen, and the older builds are next; one that gave up waiting, is refused or not written is there and not chosen |
| `EngineChoicesAlone.UpdateWithdrawn` | crates/app/src/choices.rs:97-133 | The option turned off while an update waits, or before it is confirmed, ends it |
| `EngineChoicesAlone.UpdateRefused` | crates/app/src/choices.rs:106-109 | An update that finds another installation under way ends |
| `EngineChoicesAlone.RemovesOlder` | crates/app/src/stockfish_updates.rs:235-250 | With the option on and a build of the bridge's chosen, any builds older than it can go, one by one |
| `EngineChoicesAlone.RemovesNone` | crates/app/src/stockfish_updates.rs:235-250 | With another engine chosen, or the option off, none goes |
| `EngineChoicesAlone.RemovalRefused` | crates/app/src/choices.rs:133-141 | A removal that finds one under way ends |
| `EngineChoicesAlone.SetsOption` | crates/app/src/prefs.rs:70-80 | The option is set as asked |
| `Calendar.DayOfYear` | crates/bridge/src/log.rs:244-246 | The formula for a day's year is right on every day of an era |
| `Calendar.DayOfEraSplit` | crates/bridge/src/log.rs:241-246 | Every day of an era is a day of exactly one year |
| `Calendar.DateOfDay` | crates/bridge/src/log.rs:237-250 | Every day number has a valid date, and the other computation gives the number back |
| `Calendar.DayOfDate` | crates/app/src/stockfish_updates.rs:136-142 | Every valid date is the date of its day number |
| `Calendar.NextDate` | crates/bridge/src/log.rs:237-250 | The next day number has the next date of the proleptic Gregorian calendar |
| `Calendar.CountsFrom1970` | crates/bridge/src/log.rs:237-239 | Day number `n` has the date that `n` days counted one by one lead to from 1970-01-01, and from the date of day `-n` they lead there |
| `Calendar.TimestampReads` | crates/bridge/src/log.rs:229-235 | Every second from 1970 to the end of 9999 is read back from the text it is written as |
| `Calendar.ReadsTimestamp` | crates/app/src/stockfish_updates.rs:116-142 | A text that is read is the text of the second read, exactly when its date is one of the calendar's and its second is below 60 |
| `Calendar.FourDigitYears` | crates/bridge/src/log.rs:216-227 | From 1970 on, a time is written exactly when its year has four digits |
| `CalendarText.WrittenExactly` | crates/bridge/src/log.rs:216-235 | Any second is written exactly when it is of one of the years 0 to 9999, as six numbers spelled digit by digit |
| `CalendarText.TimeGrammar` | crates/app/src/stockfish_updates.rs:116-142 | A text is read exactly when it spells six numbers in their ranges, with leap seconds and days up to 31, and as the seconds to the first of that month, of the days after it, and of the time of day |
| `HttpFraming.HeadEndFirst` | crates/bridge/src/http.rs:401-403 | The end found is the first empty line, and is found whenever there is one |
| `HttpFraming.Conn.Receive` | crates/bridge/src/http.rs:169-174 | A read takes at most what was asked, in the stream's order, and nothing twice |
| `HttpFraming.Conn.ReadRequest` | crates/bridge/src/http.rs:139-177 | The loop reads what the head's specification over the pieces says |
| `HttpFraming.Conn.ReadBody` | crates/bridge/src/http.rs:179-201 | The loop reads what the body's specification over the pieces says |
| `HttpFraming.Conn.Serve` | crates/bridge/src/server.rs:153-184 | The connection's loop takes the requests its specification says, in order |
| `HttpFraming.HeadsBySplits` | crates/bridge/src/http.rs:143-152 | A head is read at its end whatever the pieces, never past the limit; a refusal means it ends at most two bytes below the limit or later; nothing is lost or consumed but a read head |
| `HttpFraming.BodiesTakeBytes` | crates/bridge/src/http.rs:182-201 | A body is the bytes that follow, whatever the pieces, and those after it stay |
| `HttpFraming.Partition` | crates/bridge/src/server.rs:153-210 | Requests, what was taken without one, and what is left make up the stream in order, and each request is one of the stream's |
| `HttpFraming.LastIsHead` | crates/bridge/src/server.rs:153-210 | Only a whole head within the limit is taken without a request: one that is refused, or whose body does not come |
| `HttpFraming.BodyAlone` | crates/bridge/src/http.rs:182-201 | No byte after a body is read from the socket for it |
| `HttpFraming.SplitsChangeNothing` | crates/bridge/src/http.rs:141-201 | When no head is at the limit, the requests and the ending are those of the bytes alone, for every way they arrive |
| `HttpFraming.SplitsDiffer` | crates/bridge/src/http.rs:141-201 | For every connection the server gets to a head of which ends at the limit or up to two bytes before it, there are two splits into pieces that are answered differently: so the pieces change nothing only when no head is there |
| `HttpWriting.WriteBoth` | crates/bridge/src/http.rs:285-300 | Writes that each take a part leave the answer's beginning, and all of it on success |
| `HttpWriting.AdvancedLeaves` | crates/bridge/src/http.rs:289-295 | The slices after a partial write are what it did not take, and none when it took all |
| `HttpWriting.ChunksRead` | crates/bridge/src/http.rs:203-217 | A reader of chunks gets the lines back, empty ones too, and stops at the body's end |
| `StoreVersion.TextReads` | scripts/store_version.py:27-33 | A version within the limits reads back from its text |
| `StoreVersion.ReadsText` | scripts/store_version.py:27-33 | No other text reads as the same version |
| `StoreVersion.NextIsLeast` | scripts/store_version.py:36-51 | The next version is the day's least above the previous one, within the limits, and is refused exactly when the day has none |
| `StoreVersion.NextReads` | scripts/store_version.py:36-51 | Every version given reads back as one of the day above the previous |
| `StoreVersion.NextExactly` | scripts/store_version.py:36-52 | The next version is answered if and only if the major version is from 1 to 65535, the year from 2000 to 2099, the previous text a version, and a version of the day is above it; it is then the least, its month field the year's two digits and the month, its build the day and a number from 1 to 99 |
| `StoreLedger.StepOwns` | scripts/store_version.py:135-150 | Every step keeps a run's record its own, and a returned one in the ledger |
| `StoreLedger.OneOwner` | scripts/store_version.py:1-7 | The ledger is only added to: a build keeps its one record |
| `StoreLedger.ReturnedIsOwned` | scripts/store_version.py:139-150 | A run returns only a record whose ref it owns, with lost and late answers, so no two return one build |
| `StoreLedger.ReturnedReparses` | scripts/store_version.py:27-33 | Every version returned reads back within the store's limits |
| `StoreLedger.StepOrdered` | scripts/store_version.py:101-150 | With one floor every step keeps the builds contiguous and their versions rising |
| `StoreLedger.VersionsRise` | scripts/store_version.py:101-150 | With one floor no build between is missing and a later build has a later version |
| `StoreLedger.VersionsDiffer` | scripts/store_version.py:79-153 | With one floor no two runs return one version, and versions order as builds do, whatever the clocks |
| `StoreLedger.TwoFloorsOneVersion` | scripts/store_version.py:166-170 | From every reachable ledger two runs whose floors give them different builds after the same latest record, on one day, can both return the same version |
| `StoreLedger.OneVersionExactly` | scripts/store_version.py:101-150 | Whatever the floors, two runs return one version if and only if they are of one day and one major version and what each had to be above, at its last look at the ledger, leaves the same versions of that day |
| `StoreLedgerAlone.ClaimStep` | scripts/store_version.py:101-137 | A run at the ledger claims the least build above its floor and all reserved, and the least version of its day above its minimum and the latest's; with none to claim, or after twenty tries, it fails |
| `StoreLedgerAlone.SendsClaim` | scripts/store_version.py:101-137 | From every reachable ledger a run that begins sends exactly that claim |
| `StoreLedgerAlone.AnsweredHasIt` | scripts/store_version.py:138-146 | In every run an answer without an error comes only when the run's own ref is there |
| `StoreLedgerAlone.ReadsBack` | scripts/store_version.py:138-152 | Whatever the answer was, a run that reads its own record back returns it; when another's is there it tries again, and when none is it fails |
| `StoreLedgerAlone.LandsOrNot` | scripts/store_version.py:138-146 | A creation on its way lands only where nothing is, or never |
| `StoreLedgerAlone.ReturnedStays` | scripts/store_version.py:148-152 | Over every run a record returned is returned for good |
| `TopGames.SortedIsSorted` | crates/bridge/examples/index_oracle.rs:178-179 | What is sorted is in order and holds the same games |
| `TopGames.TopOfTop` | crates/bridge/examples/index_oracle.rs:183-191 | The best of some games and the best of others are the best of all |
| `TopGames.TopAssociates` | crates/bridge/examples/index_oracle.rs:183-191 | Cutting early or late, and in which groups, keeps the same best games |
| `TopGames.TopIsBest` | crates/bridge/examples/index_oracle.rs:178-179 | A game left out stands after all that are kept, which fill the list |
| `TopGames.TopDescends` | crates/bridge/examples/index_oracle.rs:176-191 | The games kept are in order of rating and then of number, the higher first, and all are kept when they are no more than twelve |
| `IndexOracle.Brute.Add` | crates/bridge/examples/index_oracle.rs:171-181 | Adding a game in place changes the tally as the specification says |
| `IndexOracle.Brute.Merge` | crates/bridge/examples/index_oracle.rs:183-191 | Merging in place changes the tally as the specification says |
| `IndexOracle.MergeMoves` | crates/bridge/examples/index_oracle.rs:185-187 | The moves' counts are added in whatever order the other's come |
| `IndexOracle.AddIsMerge` | crates/bridge/examples/index_oracle.rs:171-191 | Adding a game is merging the tally of that game alone |
| `IndexOracle.MergeCommutes` | crates/bridge/examples/index_oracle.rs:183-191 | Merging is commutative: counts, moves, best games and fingerprint |
| `IndexOracle.MergeAssociates` | crates/bridge/examples/index_oracle.rs:183-191 | Merging is associative |
| `OracleScan.OneThread` | crates/bridge/examples/index_oracle.rs:236-247 | Each record is in one thread's batch |
| `OracleScan.BatchesOf` | crates/bridge/examples/index_oracle.rs:245-271 | The records of a batch are the thread's and those up to its next batch are not |
| `OracleScan.TakenTogether` | crates/bridge/examples/index_oracle.rs:274-278 | What threads apart take, merged, is what they take together |
| `OracleScan.Sight` | crates/bridge/examples/index_oracle.rs:263-267 | A game's sightings, added one by one, change each position's tally as its own do |
| `OracleScan.Record` | crates/bridge/examples/index_oracle.rs:249-268 | One record: skipped, counted as over the limit, or added |
| `OracleScan.Scan` | crates/bridge/examples/index_oracle.rs:242-273 | A thread's loop over its batches, with 32-bit numbers that saturate and overflow, takes exactly its records |
| `OracleScan.BruteForce` | crates/bridge/examples/index_oracle.rs:231-283 | For any number of threads, merged in any order, every position's tally and the count over the limit are those of one pass |
| `OracleCounts.PassCounts` | crates/bridge/examples/index_oracle.rs:255-271 | For every position, one pass counts exactly the games that reach it, one by one: their results, those of each move, the best games, and how many, their sum and their mixed numbers |
| `OracleCounts.OverCounts` | crates/bridge/examples/index_oracle.rs:258-262 | The number over the limit is how many of the records are |
| `OracleCounts.CountedByThreads` | crates/bridge/examples/index_oracle.rs:231-283 | What any number of threads merge in any order counts those games, and the records over the limit |
| `OracleCounts.MixedOne` | crates/bridge/examples/index_oracle.rs:206-213 | The first game's number mixed, in 64 bits that wrap, is SplitMix64's answer for 1 |
| `Foreground.StepCounts` | crates/bridge/src/foreground.rs:41-51 | Every step changes the count as it changes the thread's work |
| `Foreground.CountIsWork` | crates/bridge/src/foreground.rs:120-140 | In every run, nested asides too, the count is all threads' work without what they set aside |
| `Foreground.StepKeeps` | crates/bridge/src/foreground.rs:32-73 | Every step that neither sets work aside within an aside nor ends, within an aside, more work than was begun there keeps the count's, the lock's and the wake-ups' invariant |
| `Foreground.NeverUnderflows` | crates/bridge/src/foreground.rs:95-100 | Until a thread sets work aside within an aside, or ends, within an aside, more work than it had begun there, the count covers each thread's work and is never below nothing |
| `Foreground.NoLostWakeUp` | crates/bridge/src/foreground.rs:45-68 | Until then, a thread parked though nothing runs, or though it waited enough, has a wake-up on its way |
| `Foreground.BackRestores` | crates/bridge/src/foreground.rs:126-140 | For every aside of every run and its end, of what it ran or of its unwinding from a panic, the thread's work counts after as before, with what the thread began in between and without what it ended |
| `Foreground.UnderflowsExactly` | crates/bridge/src/foreground.rs:95-140 | By any state of any run some thread set aside more than it runs, which counts below nothing as soon as a guard it is dropping is lowered, if and only if a step set work aside within an aside or ended, within an aside, more work than was begun there |
| `Foreground.NestedRun` | crates/bridge/src/foreground.rs:125-140 | A run of one thread, one work and two asides whose count falls below nothing |
| `Foreground.DropRun` | crates/bridge/src/foreground.rs:95-100 | A run of one thread, one work and one aside, the work ended within it, whose count falls below nothing |
| `ForegroundAlone.WaitEnds` | crates/bridge/src/foreground.rs:53-63 | In every run a wait ends only when it looks and nothing runs, when it asks and it was enough, when its patience is out, or in a panic |
| `ForegroundAlone.LooksAndAsks` | crates/bridge/src/foreground.rs:53-63 | From every reachable state a waiting thread that can have the lock goes on when nothing runs, or when it was enough, and is else on its way to being parked |
| `ForegroundAlone.WaitSteps` | crates/bridge/src/foreground.rs:53-63 | A wait begins at the lock; one on its way to being parked is parked and the lock free, or gives up; one parked may be woken for no reason |
| `ForegroundAlone.Begins` | crates/bridge/src/foreground.rs:87-93 | Work begun is one more running, on its thread |
| `ForegroundAlone.Ends` | crates/bridge/src/foreground.rs:95-100 | Work ended is one less, and the last wakes every waiting thread |
| `ForegroundAlone.SetsAside` | crates/bridge/src/foreground.rs:125-140 | Work set aside does not run; if nothing else did, every waiting thread is woken; a thread without work sets nothing aside |
| `ForegroundAlone.GoesBack` | crates/bridge/src/foreground.rs:126-132 | At the end of an aside the work it set aside runs again |
| `ForegroundAlone.Tells` | crates/bridge/src/foreground.rs:113-119 | What the waiting ask about, once true, wakes them all to ask again |
| `Diagnostics.WithoutPaths` | crates/app/src/diagnostics.rs:26-43 | The loops write the text with its paths replaced, and each turn takes a character |
| `Diagnostics.StartGoesOn` | crates/app/src/diagnostics.rs:31-37 | A path that starts is at least a character long |
| `Diagnostics.NoPathLeft` | crates/app/src/diagnostics.rs:17-55 | No path starts anywhere in what is left, for every text |
| `Diagnostics.CleanStays` | crates/app/src/diagnostics.rs:26-43 | Text in which no path starts stays as it is |
| `Diagnostics.Idempotent` | crates/app/src/diagnostics.rs:26-43 | A second pass changes nothing |
| `Diagnostics.MessageClean` | crates/app/src/diagnostics.rs:140-166 | What is left stays without a path when its lines are joined and it is cut anywhere |
| `DiagnosticsPaths.StartsExactly` | crates/app/src/diagnostics.rs:45-54 | A path starts exactly where one opens: a drive and a slash, `\\`, `\??\`, or a slash before a letter, a digit or a dot, the first and the last only where a word may start |
| `DiagnosticsPaths.FirstPathGoes` | crates/app/src/diagnostics.rs:18-43 | Every text is kept up to its first path, which is replaced whole: from how it opens, over names, inner drives and question marks between separators, to the first character no name holds |
| `DiagnosticsPaths.LinesOf` | crates/app/src/diagnostics.rs:164-166 | The lines put on one line are the text's between its breaks, trimmed, without the empty ones |
| `DiagnosticsPaths.JoinedBySlashes` | crates/app/src/diagnostics.rs:164-166 | They are joined by slashes |
| `Json.PushString` | crates/bridge/src/json.rs:94-110 | The loop writes a string with each character's escape |
| `JsonBytes.LengthWritten` | crates/bridge/src/json.rs:75-85 | The length told is the number of bytes the string written has in UTF-8, whose bytes section 4 of RFC 3629 reads back (`BytesRead`) |
| `JsonBytes.NothingRaw` | crates/bridge/src/json.rs:94-110 | No string written holds a control character or a line or paragraph separator as it is |
| `JsonBytes.PlainStays` | crates/bridge/src/json.rs:94-110 | Text without these, quotes and backslashes is written as it is |
| `JsonBytes.ShortEscapes` | crates/bridge/src/json.rs:98-102 | The five characters with an escape of their own are written with it |
| `Json.StringReads` | crates/bridge/src/json.rs:94-110 | A reader of section 7 of RFC 8259 gets every string back, with what follows it |
| `JsonValues.Obj.Key` | crates/bridge/src/json.rs:22-29 | A comma before every key but the first |
| `JsonValues.Obj.Raw` | crates/bridge/src/json.rs:49-54 | A field added to the object's fields, in order |
| `JsonValues.Obj.String` | crates/bridge/src/json.rs:31-35 | A string field added |
| `JsonValues.Obj.Number` | crates/bridge/src/json.rs:37-41 | A number field added |
| `JsonValues.Obj.Boolean` | crates/bridge/src/json.rs:43-47 | A field of a truth value added |
| `JsonValues.Obj.Done` | crates/bridge/src/json.rs:56-59 | The text is that of the object with the fields added |
| `JsonValues.Array` | crates/bridge/src/json.rs:62-73 | The loop writes the array of the values, in order |
| `JsonValues.ValueReads` | crates/bridge/src/json.rs:17-73 | Any nesting of objects and arrays reads back as the same values with the same fields in order |
| `JsonValues.WholeReads` | crates/bridge/src/json.rs:17-73 | The whole text reads as the value, and nothing is left |
| `EngineTurns.StepKeeps` | crates/bridge/src/engine.rs:502-719 | Every step of analyses, warm-ups, reaping and replacement keeps the slot's and the tickets' invariant |
| `EngineTurns.OneSearch` | crates/bridge/src/engine.rs:502-531 | No two searches run on one process at once |
| `EngineTurns.SlotLeftIdle` | crates/bridge/src/engine.rs:522-560 | A slot nobody holds is empty or holds a process that searches for none |
| `EngineTurns.TicketFrom` | crates/bridge/src/engine.rs:511-513 | A ticket is the engine's turn after the step that took it |
| `EngineTurns.SupersededBy` | crates/bridge/src/engine.rs:439-456 | An analysis finds its turn past exactly when a later one of its engine took a ticket, or its engine was replaced, since its own |
| `EngineTurns.EndsOnlySuperseded` | crates/bridge/src/engine.rs:514-518 | An analysis is superseded only so, before its search or in it |
| `EngineTurns.ToldExactly` | crates/bridge/src/engine.rs:634-638 | A client whose analysis ends superseded is told so if and only if the last analysis to come to its engine since its own came is of another view |
| `EngineTurns.UntoldRun` | crates/bridge/src/engine.rs:634-638 | A run in which an analysis ended by the ticket of one of another view leaves its client untold: the other said its view first and took its ticket after |
| `EngineTurns.StaleSearch` | crates/bridge/src/engine.rs:439-456 | A run in which an analysis searches on a replaced engine, its ticket taken after the replacement |
| `EngineTurns.StaleExactly` | crates/bridge/src/engine.rs:439-456 | An analysis of an engine that is no longer the one now finds its turn unmoved if and only if it took its ticket after the engine was replaced and no other analysis of the engine took one since |
| `EngineTurnsAlone.ComesToTurn` | crates/bridge/src/engine.rs:509-518 | An analysis that finds the slot free has its turn, the engine's newest, under its view, and the slot's process as it was |
| `EngineTurnsAlone.BeginsSearch` | crates/bridge/src/engine.rs:519-529 | It searches on the process that is there unless that ended, else on a new one; without one, or when it is not ready, the slot is left empty and free |
| `EngineTurnsAlone.SearchEnds` | crates/bridge/src/engine.rs:668-698 | After its best move, and when its client left and it stops, the process is there for the next analysis and searches for none; crashed or not stopped it is gone |
| `EngineTurnsAlone.SearchSuperseded` | crates/bridge/src/engine.rs:687-690 | A search whose turn is past stops, tells its client exactly when the newest is of another view, and leaves its process for the next, or nothing when it does not stop |
| `EngineTurnsAlone.TurnPast` | crates/bridge/src/engine.rs:514-518 | One whose turn is past before it searches tells its client likewise and leaves the process as it was |
| `EngineTurnsAlone.WarmsUp` | crates/bridge/src/engine.rs:537-562 | A warm-up leaves a process that searches for none: the one there, or a new one when none is or it ended; when it is not ready, none |
| `EngineTurnsAlone.Reaps` | crates/bridge/src/engine.rs:588-600 | A process idle for long, or one nobody uses, is ended |
| `EngineTurnsAlone.ReplacesEngine` | crates/bridge/src/engine.rs:439-462 | A change of the settings moves the old engine's turn on, and the next engine begins without a process |
| `Reports.NamesSort` | crates/app/src/reports.rs:250-260 | Zero-padded names sort as the times they were filed at |
| `Reports.KeptIsLongest` | crates/app/src/reports.rs:274-296 | The reports kept are the longest run of the latest-named within both caps, and never none |
| `Reports.PlacedSorted` | crates/app/src/reports.rs:262-272 | A new report takes its place among the names in order, and none is lost |
| `Reports.Outbox.Trim` | crates/app/src/reports.rs:274-296 | The loop leaves the reports the caps keep |
| `Reports.Outbox.Put` | crates/app/src/reports.rs:250-260 | Filing places the report, then trims |
| `Reports.Outbox.Deliver` | crates/app/src/reports.rs:390-423 | Exactly the reports before the first that must wait are removed; what was posted, in order; whether one waits |
| `Reports.Outbox.DropAutomatic` | crates/app/src/reports.rs:298-303 | All but the reports sent by hand are removed, and counted |
| `Reports.GoneIsFirst` | crates/app/src/reports.rs:394-423 | The report delivery stops at was posted and got no final answer; none before it was so |
| `Reports.OutcomeExactly` | crates/app/src/reports.rs:375-381 | A report waits exactly after no answer, 429, or 500 and more, and is sent by any answer from 200 to 299 |
| `Reports.ByHandExactly` | crates/app/src/reports.rs:353-356 | A report is by hand exactly when its name ends in `-manual` |
| `Reports.OffPostsByHand` | crates/app/src/reports.rs:386-393 | From the report on at which automatic reports are off, within a pass that began before too, only those sent by hand are posted, in order, after what was posted before |
| `Reports.RetryDoubles` | crates/app/src/reports.rs:383-388 | A minute at first, doubled after each failure, an hour at most |

## Left out

What the models take as given:

- The processor's carry-less multiplication instructions are polynomial products of 64-bit halves; whether they are there is a parameter.
- Text is a sequence of Unicode scalars. `to_string_lossy` of a path is the path; Unicode's letters and digits are a parameter of which ASCII's and the spaces' are fixed.
- Reads from a socket are arbitrary pieces of the stream; time-outs and interruptions are pieces that do not come. The head's parser and the server's policy are one function of the head.
- A file's rename is atomic and lasts, and so does what was flushed before it; a file not flushed may hold anything, or be gone, after a crash. `flock` locks belong to open files; a process that closed its descriptor and still builds in the folder is outside the lease, and so are one that edits its environment and a worktree whose members change while it owns the folder.
- Tokens, tag objects and process identifiers in use are unlike each other.
- A batch of records answers those from its first number to its last, or to the last record.
- `bridge.toml` is edited by hand only before a run begins, with any text; the choice of engine changes only through the settings window, installations and updates. What a probe accepts exists.
- Counts of games, choices, tickets and turns do not reach the end of 64 bits.

What is not modelled:

- Protocols are step machines over values rather than objects with methods: what one thread does between two steps is one function, and its locals are its phase.
- `target_slot.py`: the wait for a free slot over several folders. `acquire` can answer None for a private folder, which `main` does not expect, exactly in the states of `RefusedExactly`.
- `SweptUnheld`: a private folder is not swept while its one lease is being taken, which the sweep's minute of grace is for; clocks are not modelled.
- `config.rs`: the error texts, and `Watched`, which tells each reader of a change once.
- `http.rs`: parsing a head, percent-decoding, closing a connection, and the bytes of an answer's head.
- `diagnostics.rs`: `without_quotes`, `source_file` and the counts of a page's errors.
- `stockfish_updates.rs`: reading GitHub's answer and the newest build known.
- `log.rs`: the file of the log, its cap, and the faults kept until their sink is set.
- `reports.rs`: a report filed while others go out, what a report holds, the failures sent today, and files that cannot be removed.
- `engine.rs`: what is said to an engine and read from it, and how lines are paced.
- `index_oracle.rs`: walking a game, and the comparison with the explorer's answer.
- `indexdir.rs`: moving and sweeping index files, and retried renames.
- `store_version.py`: the legacy tags, which only raise the version every new one is above, a run's own parameter here.
- Windows, tray and scripts of the app, access control, budgets and the small caches around them: they would add only easy members.
