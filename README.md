# exaconf helpers and device handling, modelled in Dafny

The `exaconf` command line of docker-db edits the cluster configuration
file EXAConf. This project models the logic around that file in three
Python modules:

- **`libexadt/util.py`**:
  - `units2bytes` reads sizes such as `5 KiB`.
  - `str2sec` and `string_to_seconds` read durations such as `1w 2d 3h`, and `sec2str` writes them.
  - `is_shadow_encoded` and `is_file_name_safe` are checks on strings.
  - `atomic_file_writer` writes a hidden temporary file and, on close, renames it onto the target or drops it as a duplicate.
- **`libexadt/exaconf.py`**:
  - `str2bool` and the owner (`uid:gid`) and comma-list parsing of the arguments.
  - The in-place edits `modify_node`, `modify_volume` and `modify_backup_schedule` make to a configuration section.
  - `main`: password scrubbing of the log record and the exit status.
- **`libexadt/device_handler.py`**:
  - Device short names, the mapped-device lookup and the device-file tests.
  - The numbering of a new device in `get_file_name`.
  - The per-mount-point space check of `check_free_space`.
  - The sizing arithmetic of `auto_create_file_devices`.

## Modules

Each file holds one module:

- `wrappers.dfy`: `Option` and `Result`.
- `pystr.dfy`: the Python builtins these functions rely on.
  - `str.strip`, `split`, `join`, `startswith`, `endswith`, `in` and `lower`.
  - `int()` of a text: surrounding whitespace, an optional sign, and digits with single `_` separators. `int()` strips less than `str.strip`: it keeps the information separators U+001C to U+001F, so a text holding one is no integer.
  - `%d` formatting.
- `units.dfy`: `units2bytes`.
- `durations.dfy`: `str2sec`, `sec2str` and `string_to_seconds`.
- `string_checks.dfy`: `is_shadow_encoded` and `is_file_name_safe`.
- `atomic_writer.dfy`: `atomic_file_writer`, over a `FileSystem` object whose `files` map is a path-to-file dictionary.
- `exaconf_args.dfy`: `str2bool`, the comma lists and the owner ids.
- `exaconf_edit.dfy`: the three `modify_*` commands.
  - A configuration section is a `ConfRecord` object whose `fields` map the commands reassign.
  - Each command is proved against a specification function of the form "old section + the options set".
- `exaconf_main.dfy`: `main`.
- `device_handler.dfy`: the device handler.

Structure tracks the source:

- Code that loops or updates in place is a `method` with loop invariants, proved equal to a specification function. This covers:
  - the two loops of `string_to_seconds` over an `intervals` array;
  - `is_shadow_encoded`, `is_mapped_device`, `get_file_name` and `check_free_space`;
  - the `modify_*` commands;
  - the password loop of `main`;
  - the writer's `close`.
- `str2sec` and `sec2str` assign variables in sequence without a loop. Each is a straight-line `method` proved equal to a specification function.
- Expression code is a `function`. Its meaning is stated in `ensures` and in lemmas.

## Model

| member | source | states |
|---|---|---|
| Units.Units2Bytes | libexadt/util.py:111-131 | accepted exactly when some well-formed layout (spaces, digits, fraction, spaces, unit letter, `i`, `B`, spaces) spells the text, and then the size that layout's pieces stand for; raises otherwise |
| Units.ParseRender | libexadt/util.py:111 | any well-formed layout (spaces, digits, fraction, spaces, unit letter, `i`, `B`, spaces) is matched back into exactly those pieces |
| Units.RenderParse | libexadt/util.py:111 | every match is a well-formed layout that spells the input text |
| Units.MatchesLayouts | libexadt/util.py:111-119 | the pattern matches exactly the texts a well-formed layout spells, and the match is that layout |
| Units.Units2BytesOfText | libexadt/util.py:116-131 | an integer text yields its digits' value times the unit's multiplier |
| Units.MultiplierTable | libexadt/util.py:112-114 | no letter scales by 1; the k-th letter of `kmgtpezy`, in either case, scales by 1000^k, or 1024^k with `i` |
| Units.SizeIgnoresLayout | libexadt/util.py:111-122 | surrounding spaces, the `B` and the letter's case never change the size |
| Units.Units2BytesOfDigits | libexadt/util.py:116-126 | a plain digit string yields its value in bytes |
| Units.Units2BytesOfNat | libexadt/util.py:116-126 | the decimal text of any n yields n bytes |
| Durations.TakeToken | libexadt/util.py:160-179 | one token block: the text after the token and the seconds added, per the token's match |
| Durations.TakeTokens | libexadt/util.py:159-179 | the five blocks strip the optional w, d, h, m, s tokens in that order and add the weighted counts |
| Durations.Str2Sec | libexadt/util.py:148-185 | None gives 0; a plain integer is its value; otherwise tokens in order plus a trailing bare number as seconds; any other leftover raises |
| Durations.Sec2Str | libexadt/util.py:188-201 | the non-zero week/day/hour/minute/second components in that order joined by single spaces, "0s" when all are zero |
| Durations.ComponentsOfNonNegative | libexadt/util.py:189-193 | for seconds >= 0 each component is below its radix and the weighted components sum back to the input |
| Durations.ScanIntervals | libexadt/util.py:563-569 | a fresh five-slot `intervals` array holding each unit's token count, and the text after the tokens |
| Durations.WeightedSum | libexadt/util.py:576-578 | the sum of each count times its unit's seconds |
| Durations.StringToSeconds | libexadt/util.py:557-579 | the weighted token counts, a trailing bare number replacing the seconds count, and -1 for any other leftover |
| Durations.ParseFormat | libexadt/util.py:148-201 | the text sec2str builds from any non-negative counts parses back to their weighted sum under both parsers |
| Durations.Str2SecOfSec2Str | libexadt/util.py:148-201 | str2sec(sec2str(s)) == s for every s >= 0 |
| Durations.StringToSecondsOfSec2Str | libexadt/util.py:557-579 | string_to_seconds(sec2str(s)) == s for every s >= 0 |
| Durations.ZeroText | libexadt/util.py:200 | "0s" parses as 0 under both parsers |
| Durations.StringToSecondsVersusStr2Sec | libexadt/util.py:557-579 | wherever str2sec raises, string_to_seconds gives -1; wherever str2sec succeeds, string_to_seconds is lower by exactly the seconds count a trailing number overwrote |
| Durations.MinusOneIsNoRejection | libexadt/util.py:570-573 | -1 is also an ordinary result: "-1" gives -1 under both parsers, so string_to_seconds returning -1 does not mean str2sec raises |
| Durations.IntTextBothParsers | libexadt/util.py:570-573 | a plain integer text gives its value under both parsers |
| Durations.TrailingNumberAfterSeconds | libexadt/util.py:570-573 | "5s 3": str2sec adds the 3 (8), string_to_seconds replaces the 5 (3) |
| Durations.InfoSeparatorRefused | libexadt/util.py:153-184 | "\x1c5" is refused by str2sec and gives -1 from string_to_seconds: `\s` counts U+001C as whitespace, `int()` does not |
| Durations.UnitsOutOfOrder | libexadt/util.py:160-184 | a week token after a day token is rejected by str2sec and gives -1 from string_to_seconds |
| StringChecks.IsShadowEncoded | libexadt/util.py:518-526 | true exactly when one of `$1$`, `$2a$`, `$2y$`, `$5$`, `$6$` starts the password |
| StringChecks.ShadowPrefixIsShape | libexadt/util.py:18 | having a shadow prefix is the same as the character-level shape `$` id `$` with id among 1, 2a, 2y, 5, 6 |
| StringChecks.IsFileNameSafe | libexadt/util.py:616-624 | safe exactly when non-empty, made only of ASCII word characters, `.` and `-`, and neither `.` nor `..` |
| StringChecks.SafeNameHasNoSeparator | libexadt/util.py:616-624 | a safe name contains no `/` and no NUL |
| AtomicWriter.Translate | libexadt/util.py:40-42 | a text-mode read never yields `\r` and never lengthens the text |
| AtomicWriter.TranslateNoReturn | libexadt/util.py:40-42 | text without `\r` reads back unchanged |
| AtomicWriter.TranslateIdempotent | libexadt/util.py:40-42 | reading is idempotent |
| AtomicWriter.CrLfReadsSame | libexadt/util.py:40-42 | a file written with CRLF line ends compares equal to the LF version |
| AtomicWriter.TempIsNotTarget | libexadt/util.py:24-27 | the temporary file's base name is `.<basename>.<random>` and it is never the target path |
| AtomicWriter.BasenameOfJoin | libexadt/util.py:24-27 | the base name of a directory joined with a slash-free name is that name |
| AtomicWriter.Commit | libexadt/util.py:36-47 | when close's reads succeed: the duplicate flag is set exactly when the target existed and read the same; the temporary file is gone; a duplicate target is left as it was, otherwise the target is the written file with its mode and owner, so it reads as what was written; no other file changes |
| AtomicWriter.AtomicFileWriter.constructor | libexadt/util.py:21-32 | creates the empty temporary file with the mode and the owner given, or the caller's own ids otherwise |
| AtomicWriter.AtomicFileWriter.Write | libexadt/util.py:33-34 | appends to the temporary file's content while open; fails once closed |
| AtomicWriter.AtomicFileWriter.Ignored | libexadt/util.py:55-56 | whether the last close found a duplicate, which is never the case while the file is open |
| AtomicWriter.AtomicFileWriter.Close | libexadt/util.py:36-47 | closes; it raises and changes nothing when the temporary file is gone, or when the target exists and it or the temporary file cannot be read as text (a directory, no permission, undecodable bytes); otherwise the file system and `ignored()` become the commit's result |
| ExaconfArgs.Str2Bool | libexadt/exaconf.py:54-60 | true exactly for yes/true/t/y/1 and false exactly for no/false/f/n/0, after lower-casing; any other text raises |
| ExaconfArgs.Str2BoolIgnoresCase | libexadt/exaconf.py:55-57 | the answer depends only on the lower-cased text |
| ExaconfArgs.Str2BoolUpperCase | libexadt/exaconf.py:55-57 | "TRUE" is true and "NO" is false |
| ExaconfArgs.Str2BoolRefuses | libexadt/exaconf.py:58-60 | "on" and the empty text raise |
| ExaconfArgs.CleanElements | libexadt/exaconf.py:207 | the kept pieces are stripped, non-empty, in order, and contain no separator |
| ExaconfArgs.CleanOfClean | libexadt/exaconf.py:207 | cleaning already clean pieces changes nothing |
| ExaconfArgs.CommaList | libexadt/exaconf.py:207 | each element of a comma list is stripped, non-empty and comma-free |
| ExaconfArgs.CommaListOfJoin | libexadt/exaconf.py:131-132 | joining clean elements with commas and parsing gives them back in order |
| ExaconfArgs.MapAllMeaning | libexadt/exaconf.py:200 | the tuple comprehension succeeds exactly when every piece converts, and then holds each conversion in order |
| ExaconfArgs.IntsMeaning | libexadt/exaconf.py:167 | `int` of every piece succeeds exactly when each piece is an integer text, and the tuple holds their values |
| ExaconfArgs.OwnerIds | libexadt/exaconf.py:200 | the owner tuple exists exactly when every non-blank stripped `:`-separated piece is an integer text, and then holds their values in order |
| ExaconfArgs.ParseOwner | libexadt/exaconf.py:224-228 | an owner is accepted exactly when there are exactly two non-blank pieces and both are integer texts, and then it is their two values |
| ExaconfArgs.ParseOwnerOfIds | libexadt/exaconf.py:167-171 | `uid:gid`, with any spaces around the numbers, is accepted as (uid, gid) |
| ExaconfArgs.ParseOwnerRejectsOne | libexadt/exaconf.py:224-228 | a lone id is not an owner |
| ExaconfEdit.NodeStepsAreEdit | libexadt/exaconf.py:97-112 | the four set-and-delete steps in source order equal the section with the given options set and their counterparts removed |
| ExaconfEdit.NodeEditSide | libexadt/exaconf.py:97-112 | a given network sets that side's network and removes its IP, a given IP sets its IP and removes its network, and an unspecified side is unchanged |
| ExaconfEdit.NodeEditOthers | libexadt/exaconf.py:97-112 | keys other than the four network keys are unchanged |
| ExaconfEdit.NodeEditKeepsExclusive | libexadt/exaconf.py:97-112 | "not both network and IP of a side" is preserved |
| ExaconfEdit.ModifyNode | libexadt/exaconf.py:83-115 | an unknown node returns 1, and `_all` when absent raises KeyError; net and IP of one side both given returns 1; otherwise only that node's section changes, to the edit |
| ExaconfEdit.VolumeStepsAreEdit | libexadt/exaconf.py:196-213 | the steps in source order equal the section overridden by the options set |
| ExaconfEdit.VolumeMasterNodes | libexadt/exaconf.py:205-209 | a node list sets `nodes` and, without a count, `num_master_nodes` to its length; a non-zero count always wins; with neither the count is unchanged |
| ExaconfEdit.VolumeFields | libexadt/exaconf.py:199-204 | a given owner is stored as its ids, and size and disk as given; each is untouched when not given |
| ExaconfEdit.VolumeOtherFields | libexadt/exaconf.py:210-213 | labels and non-zero redundancy are stored when given, and every other key is untouched |
| ExaconfEdit.VolumeOptions | libexadt/exaconf.py:199-213 | the option steps on the section's fields, equal to the specification steps |
| ExaconfEdit.ModifyVolume | libexadt/exaconf.py:188-217 | an unknown volume returns 1, and `_all` when absent raises KeyError; an owner that does not parse raises ValueError with nothing changed; otherwise only that volume changes, to the edit |
| ExaconfEdit.BackupStepsAreEdit | libexadt/exaconf.py:559-571 | the six steps in source order equal the section overridden by the options set |
| ExaconfEdit.BackupEditTimes | libexadt/exaconf.py:560-565 | minute, hour and day are overwritten exactly when their value is non-empty |
| ExaconfEdit.BackupEditDates | libexadt/exaconf.py:566-571 | month and weekday likewise; `enabled` becomes false when `disabled` is set and is untouched otherwise |
| ExaconfEdit.BackupEditOthers | libexadt/exaconf.py:559-571 | every other key is untouched |
| ExaconfEdit.BackupCliResets | libexadt/exaconf.py:1606-1659 | with the command line's `*` defaults, a cron field the user leaves out becomes `*` |
| ExaconfEdit.ModifyBackupSchedule | libexadt/exaconf.py:545-572 | an unknown database, a database without backups, or an unknown schedule returns 1, and `_all` when absent raises KeyError; otherwise only that schedule changes, to the edit |
| ExaconfMain.Scrubbed | libexadt/exaconf.py:1706-1708 | exactly the non-password attributes remain, with their values |
| ExaconfMain.ScrubPasswords | libexadt/exaconf.py:1706-1708 | the key loop yields the scrubbed namespace |
| ExaconfMain.Main | libexadt/exaconf.py:1705-1723 | something is logged exactly when a subcommand function is set; no subcommand gives status 0; a logged run has status 1 exactly when an error is recorded, and is then at error level; no password key is logged |
| ExaconfMain.MainLogContents | libexadt/exaconf.py:1709-1718 | the log holds the function's name, an int result, no None result, the error message, and every other attribute as given |
| ExaconfMain.CliMain | libexadt/exaconf.py:1705-1723 | the step-by-step run agrees with `Main` |
| ExaconfMain.ExitSwallowed | libexadt/exaconf.py:1713-1723 | a subcommand ending in `sys.exit` is logged at info level with exit status 0 |
| ExaconfMain.UnreadableConfExitsZero | libexadt/exaconf.py:67-72 | `modify-volume` on an unreadable EXAConf exits with status 0 |
| ExaconfMain.MainFixed | libexadt/exaconf.py:1713-1723 | the same log, with a subcommand's exit status propagated |
| ExaconfMain.FixedExitPropagates | libexadt/exaconf.py:1713-1723 | with the fix, a failed EXAConf read exits 1, a raise exits 1, and returns are unchanged |
| DeviceHandler.ShortName | libexadt/device_handler.py:203-215 | removes the data suffix when the name ends with it, else the meta suffix, else returns the name unchanged; an empty suffix that applies gives the empty name, as `name[:-0]` does |
| DeviceHandler.ShortNameOfData | libexadt/device_handler.py:211-212 | a name plus the data suffix shortens back to the name |
| DeviceHandler.ShortNameOfMeta | libexadt/device_handler.py:213-214 | a name plus the meta suffix shortens back to the name |
| DeviceHandler.IsMappedDevice | libexadt/device_handler.py:66-87 | true exactly when some mapping entry's short name equals the short basename of the device |
| DeviceHandler.NoMappingMapsNothing | libexadt/device_handler.py:79-87 | a disk without a mapping maps no device |
| DeviceHandler.MappedAcrossSuffixes | libexadt/device_handler.py:71-85 | a mapping entry for a meta file maps the matching data file |
| DeviceHandler.IsDeviceFile | libexadt/device_handler.py:148-150 | a name that starts with the device prefix is a device file, and a device file is at least as long as the prefix |
| DeviceHandler.IsDataDeviceFile | libexadt/device_handler.py:154-156 | a data device file is a device file and is at least as long as the data suffix |
| DeviceHandler.IsMetaDeviceFile | libexadt/device_handler.py:160-167 | a meta device file is a device file and is at least as long as the meta suffix |
| DeviceHandler.PrefixedIsDevice | libexadt/device_handler.py:148-150 | a name starting with the device prefix is a device file |
| DeviceHandler.DevNumber | libexadt/device_handler.py:197 | reading a device's number fails only with IndexError (no `.`) or ValueError (no integer) |
| DeviceHandler.DevNumberKeepsInfoSeparator | libexadt/device_handler.py:197 | "d.\x1c5" has no number: `int()` does not strip the U+001C |
| DeviceHandler.DevNumbers | libexadt/device_handler.py:197 | the list comprehension succeeds exactly when every device has a number, and then holds them in order |
| DeviceHandler.Max | libexadt/device_handler.py:197 | the maximum bounds every element and is one of them |
| DeviceHandler.NextNumber | libexadt/device_handler.py:195-197 | fails exactly when some device has no number; otherwise the number is above every existing one and is the maximum plus 1; no devices gives 1 |
| DeviceHandler.Foreign | libexadt/device_handler.py:185 | the foreign files are exactly the listed files that are not device files |
| DeviceHandler.GetFileName | libexadt/device_handler.py:171-199 | the nested loops and the foreign-file check compute the specified file name or error |
| DeviceHandler.FileName | libexadt/device_handler.py:171-199 | refused exactly when the foreign-file check is asked for and the directory cannot be listed or holds a non-device file, or some device has no number; otherwise the storage directory joined with the prefix and the next number |
| DeviceHandler.NewDeviceIsNew | libexadt/device_handler.py:189-199 | with a `<name>.` prefix, the new file's base name is a device file name that no existing device has |
| DeviceHandler.GroupMeaning | libexadt/device_handler.py:130-134 | a mount point's group holds exactly the devices on that mount point |
| DeviceHandler.MountsMeaning | libexadt/device_handler.py:130-134 | the mount points are exactly those of some device |
| DeviceHandler.OneGroupEach | libexadt/device_handler.py:130-134 | every device is in its own mount point's group and in no other |
| DeviceHandler.SufficientMeans | libexadt/device_handler.py:136-144 | sufficient exactly when every mount point's free space covers its files' virtual minus physical size |
| DeviceHandler.CheckFreeSpace | libexadt/device_handler.py:91-144 | for a set of distinct devices: raises for a non-file device type; otherwise the grouping and summing loops give the sufficiency verdict |
| DeviceHandler.NodeFileDevicesDir | libexadt/device_handler.py:263-280 | raises exactly for a non-file device type; a non-blank path is used stripped, else the node's storage directory under the docker root |
| DeviceHandler.StripBlank | libexadt/device_handler.py:279 | a path strips to empty exactly when it is all whitespace |
| DeviceHandler.Usable | libexadt/device_handler.py:369-380 | the usable space is the smaller of the cap (the given `max_space`, else the default) and the free space minus the reserve, and is one of the two |
| DeviceHandler.AutoBytesPerNode | libexadt/device_handler.py:359-392 | succeeds exactly when free space suffices (outside a container), no node has disks and there are nodes; the result is the floor of usable space over the node count |
| DeviceHandler.AutoHostBounds | libexadt/device_handler.py:369-380 | outside a container with the default cap, the devices take at most 50 GiB and leave 3 GiB per node |
| DeviceHandler.AutoInternalBounds | libexadt/device_handler.py:369-376 | inside a container with the default cap, the devices take at most 6 GiB and leave 1 GiB |

## Left out

- The `EXAConf` class is not part of this model.
  - Its sections are maps of fields.
  - `node_exists` and `cmd.name in volumes` are map membership.
  - `set_node_conf`, `set_volume_conf` and `set_backup_schedule_conf` write the edited section back; that write-back is not modelled. Its checks, revision counter and file output are not modelled either.
  - The `add_*`, `remove_*` and other commands that only call `EXAConf` are not modelled.
- `read_exaconf` is only modelled as the outcome it gives a subcommand: a `sys.exit(1)` for an unreadable file. Parsing the file is `EXAConf`'s work.
- Command-line parsing (argparse) is not modelled. It enters only as the namespace `main` receives, and as the `*` defaults of the backup schedule options.
- The `log` class and its output are not modelled. Logging is the `LogEntry` that `main` would write. A raised exception is logged by its message text, not by the exception object.
- Printing is not modelled. The messages printed before `return 1` are dropped; the return value is kept.
- I/O enters as parameters instead of being performed:
  - the existing files of `get_file_name` (the `os.listdir` result, or an error);
  - the mount point, free space, size and block count of each device in `check_free_space`, as functions;
  - the root file system's free space in `auto_create_file_devices`.
- `get_mount_point`, `get_free_space`, the disk scan that builds `check_free_space`'s device set, and `check_fix_local_dev_path` are not modelled. `CheckFreeSpace` takes the device set as a sequence, in its iteration order.
- File creation is not modelled: `create_node_file_devices`, `create_file_devices`, `remove_file_devices` and the device creation at the end of `auto_create_file_devices` (sparse files, `makedirs`, EXAConf updates). Only the directory choice and the device-type check of `create_node_file_devices` are modelled.
- Floating point is not modelled: `bytes2units`, `calc_db_memory`, the `0.666` factor, and the value of a fractional `units2bytes` input. That value is kept as the digits and the multiplier (`Fraction`), not computed.
- `atomic_file_writer`:
  - `__getattr__` is modelled only for `write`.
  - The `with` protocol (`__enter__`/`__exit__`) is just a `Close`.
  - `fchmod`/`fchown` are the mode and owner of the new file.
  - Only the text `writemode` is modelled.
  - `NamedTemporaryFile`'s random name is a parameter, and the abstract path is the path itself.
- Randomness, crypto and base64 are not modelled: `gen_passwd`, the uuid helpers, `encode_shadow_passwd`, and the `encode_*`/`decode_*` password codecs.
- Network, subprocess, user-database and clock helpers are not modelled: `confd_job_exec`, `get_*_interface*`, `timed_run`, `to_uid` and its siblings, `get_euid`/`get_egid`/`get_username`, `rotate_file`, `md5`, `utc_date*` and `get_linux_distribution`.
- Remote and file-sync commands are not modelled: `commit`, `encode_db_passwd` and `reorder_database_affinities`.
- PyStr.PyInt models `int()` of a text for ASCII digits only. Python also accepts other Unicode decimal digits.
- ExaconfEdit.ModifyVolume models the owner as written: it is stored as whatever ids parse, with no check that there are exactly two. That check exists only in `add_volume` and `add_remote_volume`, and `ParseOwner` models it.
- DeviceHandler.ShortName with an empty suffix is modelled as written: `name[:-0]` is the empty string.
- DeviceHandler.AutoBytesPerNode states bounds on the result rather than the exact error messages. The messages are kept as text, but `bytes2units` in the first message is not modelled.

## Findings

| source | as written | input that shows it | evidently intended | confidence | as-written member | corrected member |
|---|---|---|---|---|---|---|
| libexadt/exaconf.py:1713-1723 (with 67-72) | the `return` inside `finally` discards the `SystemExit` raised by `read_exaconf`'s `sys.exit(1)`, so the run is logged at info level and the process exits with status 0 | `exaconf modify-volume <file> --size 1G` where `<file>` cannot be read as EXAConf | exit status 1 when the configuration cannot be read | medium, not executed | ExaconfMain.ExitSwallowed, ExaconfMain.UnreadableConfExitsZero | ExaconfMain.MainFixed, ExaconfMain.FixedExitPropagates |
