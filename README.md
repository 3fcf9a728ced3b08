# backuper, modelled in Dafny

`backuper` is a backup tool driven by one YAML configuration file. The file
lists servers. Each server has folders (`files`) and databases (`databases`)
to back up, plus the storages the archives go to: a local history folder
(`local_history`) and an AWS Glacier vault (`aws_glacier`). Every storage has
a retention policy (`memory`) with four tiers: days, weeks, months and years.
The tool turns the configuration into a list of *actions*. Its commands pick
actions by glob targets. They test that sources and destinations are
writable, list archives, remove the archives the policy no longer keeps,
save a new archive on every storage that is due, and collect a report. The
report is rendered as text, or sent to a webhook through a mapping such as
the Rocket.Chat one.

This project models the tool's core in Dafny and proves properties of it.
The model covers:

- the retention decision of `BackupFrequency` (day windows, ISO weeks,
  calendar months and years, and the exceptions raised when a window
  starts outside the calendar: `OverflowError` for a week window or a year
  beyond a C `int`, `ValueError` for any other year outside 1..9999);
- archive naming and the filename filters;
- the configuration tree utilities (`to_list`, `deep_merge`,
  `extract_keys`);
- the whole of `_load_conf` after YAML loading: section sorting, per-server
  merging, the storage, action, frequency and webhook parsers, the
  duplicate-name check and the report targets;
- target selection;
- the write-test memo and `test_backup`;
- the `clean_archives`, `list_archives`, `run_backup` saving loop and
  `do_backup` commands;
- the `Report` class with its text rendering;
- the Rocket.Chat `map_report`.

How the source takes form in the model:

- Pure code becomes functions and lemmas.
- Loops become methods proved against those functions.
- Objects the source updates in place become classes with `modifies`
  clauses: `Report`, `WriteTestCache`, the dictionaries `extract_keys`,
  the storage parsers and `map_report` change, and the outside world of
  the commands.
- Python dictionaries are sequences of entries in insertion order.
- Dates are proleptic Gregorian dates with `toordinal` day numbers.

The reference date (`TimeReference`) is a parameter `today`. So are the
file system, the shell commands, AWS and the network: each one is an oracle
the commands receive.

Python's behaviour is modelled as the code is written, including surprising
paths. Where the tool's documentation suggests otherwise, the model follows
the code. Examples of such paths:

- A `method` field makes a webhook GET, because the comparison is with
  `"False"`.
- `glacier_vault` inside `aws_glacier` lands under a key nothing reads.
- A `files` section given as a string or a non-empty list fails with
  `TypeError`.
- A `databases` section that is not a dictionary fails with
  `AttributeError`.
- The `not is_dict(files_info)` check of the databases block can never
  fail.
- A server description given as a non-empty string fails with
  `ValueError`, since `dict.update` reads it as a sequence of pairs; an
  empty string changes nothing.
- A `check_dest_access` whose destination folder is `None` raises
  `TypeError` when its write test in the temporary directory fails, now
  or in an earlier check, because the message concatenates the folder.
  `test_backup` then reports the source messages of that action twice.
- The exclusions of a files action are kept by a string-prefix test: for
  the folder `/var/www`, the entry `/var/www2/cache` is kept although it
  is not under that folder.

## Model

| member | source | states |
|---|---|---|
| Dates.IsoWeekday | backup.py:1795-1809 | `isoweekday()` is 1 to 7, with 1 January of year 1 a Monday |
| Dates.OrdinalRange | backup.py:1801-1833 | the day number of every valid date lies between the smallest and largest `toordinal()`; this is the range whose crossing makes `should_keep` raise |
| Dates.OrdinalCompare | backup.py:1805-1833 | comparing two dates (`date >= last_allowed_date`) is comparing their day numbers, both ways |
| Retention.CheckEmpty | backup.py:1775-1779 | `is_empty` returns true exactly when all four tiers are `NO_VALUE` |
| Retention.CheckNeedDeletion | backup.py:1781-1785 | `need_deletion` returns true exactly when some tier is neither `ALL_VALUE` nor `NO_VALUE` |
| Retention.MondayOf | backup.py:1801-1809 | the week window is anchored on the Monday of the ISO week, at most 6 days before the date |
| Retention.MonthStart | backup.py:1813-1818 | the month window starts on day 1 of the month `n - 1` months before today's month, with the floored year arithmetic of the source |
| Retention.ShouldKeep | backup.py:1787-1834 | a day tier of `all` keeps everything; with no day or week tier, only a first of month can be kept |
| Retention.WeekTier | backup.py:1801-1809 | from the week tier on, without a week tier only a first of month can be kept |
| Retention.MonthTier | backup.py:1810-1821 | from the month tier on, only a first of month is kept |
| Retention.YearTier | backup.py:1822-1833 | the year tier keeps only a 1 January |
| Retention.ShouldSave | backup.py:699-700 | an archive made today is saved when the day tier is `all` or at least 1 |
| Retention.KeepNothing | backup.py:1787-1834 | with every tier `no`, no date is kept |
| Retention.DailyWindow | backup.py:1793-1797 | a day tier of `n` keeps exactly the dates less than `n` days before today (future dates included), both ways |
| Retention.WeekStartIsMonday | backup.py:1801-1807 | the week window's first day is a Monday, `n - 1` weeks before today's Monday |
| Retention.WeeklyWindow | backup.py:1798-1809 | a week tier of `n` keeps a Monday if and only if it is no earlier than that first Monday, and no other day |
| Retention.FirstOfMonthOrder | backup.py:1810-1821 | for firsts of months, date order is month-count order |
| Retention.MonthlyWindow | backup.py:1810-1821 | a month tier of `n` keeps a first of month if and only if its month is among the `n` months ending with today's, across year boundaries; a window starting before year 1 raises `ValueError`, or `OverflowError` when its year is below the C `int` range |
| Retention.YearlyWindow | backup.py:1822-1833 | a year tier of `n` keeps 1 January of the last `n` years (or later), and nothing else; a window starting before year 1 raises `ValueError`, or `OverflowError` when its year is below the C `int` range |
| Retention.TierShapes | backup.py:1787-1834 | only the day tier keeps days other than Mondays and firsts of months; only the day and week tiers keep days other than the first |
| Retention.TierUnion | backup.py:1787-1834 | when no tier raises, the policy keeps a date exactly when one of its tiers alone would keep it |
| Retention.NoDeletionTimeless | backup.py:1781-1834 | a policy without counted tiers (`need_deletion` false) decides the same way whatever the reference date |
| Archives.ParseArchiveFilename | backup.py:715-726 | an accepted name has at least 10 characters, its only early `_` at index 8, an 8-digit stamp and a valid date; the rest is what follows the `_` |
| Archives.StorageShouldKeep | backup.py:714-727 | a name that is not an archive name is not kept; a storage whose memory section gave no frequency raises `AttributeError`; otherwise the archive's date is judged by the storage's frequency |
| Archives.StorageShouldSave | backup.py:699-700 | `should_save` is the frequency's judgement of today, or `AttributeError` without a frequency |
| Archives.ListLocalArchives | backup.py:746-766 | the loop returns the local listing: the joined paths of the entries that are files, pass the filename filter and match the action name |
| Archives.LocalListingMembers | backup.py:746-766 | a path is listed if and only if it is the join of the folder with an accepted entry |
| Archives.GlacierListing | backup.py:793-800 | a Glacier listing holds at most the names of the index |
| Archives.ListGlacierArchives | backup.py:793-800 | the loop returns the Glacier listing; a name without `_` fails the unpacking with `ValueError` |
| Archives.GlacierErrorStays | backup.py:795-796 | the first failing name decides the error of the whole listing |
| Archives.StampFields | backup.py:730 | `strftime("%Y%m%d")` of a valid date is eight digits whose fields read back as the year, month and day |
| Archives.ParseOfStamp | backup.py:716-726 | an 8-digit stamp of a valid date, `_` and a non-empty rest pass the filter and give back that date and rest |
| Archives.ArchiveNameRoundTrip | backup.py:729-730 | the name `_archive_name` builds parses back to the date it was built on and to `full_name + "." + extension` |
| Archives.ArchiveNameNoSlash | backup.py:729-730 | an archive name holds a `/` only where the action name or the extension does |
| Archives.SavedArchiveListed | backup.py:742-766 | an archive saved for an action is listed by `list_archives` for that action |
| Archives.SavedArchiveKept | backup.py:699-727 | `should_keep` judges a saved archive as `should_save` did on the day it was saved |
| Archives.NewlineStampAccepted | backup.py:719-720 | `$` also matches before a final newline, so a date field ending in a newline still passes the filter |
| Archives.GlacierSkipsDateFilter | backup.py:793-800 | the Glacier listing keeps a name that the local date filter refuses |
| ConfigTree.FindSpec | backup.py:406 | `key in d` holds exactly when some entry has the key |
| ConfigTree.Lookup | backup.py:407 | `d[key]` is the value of the entry with that key |
| ConfigTree.Set | backup.py:407 | after `d[k] = v`, `k` maps to `v` |
| ConfigTree.SetPrefix | backup.py:407 | `d[k] = v` keeps every key in its place and puts a new key last |
| ConfigTree.SetUnique | backup.py:407 | `d[k] = v` keeps the keys distinct |
| ConfigTree.LookupOther | backup.py:407 | `d[k] = v` leaves the other keys' values |
| ConfigTree.SetTwice | backup.py:407 | a second assignment to the same key overwrites the first in place |
| ConfigTree.RemoveGone | backup.py:408 | after `del d[k]`, `k` is absent |
| ConfigTree.RemoveOther | backup.py:408 | `del d[k]` leaves the other keys' values |
| ConfigTree.RemoveAbsent | backup.py:408 | deleting an absent key changes nothing |
| ConfigTree.PyDict.ExtractKeys | backup.py:394-410 | `extract_keys` returns the entries under the listed keys and leaves the rest in the dictionary |
| ConfigTree.ExtractSpec | backup.py:394-410 | the extracted dictionary holds exactly the listed keys the input had, with their values; the input keeps exactly the others |
| ConfigTree.ToList | backup.py:413-417 | `to_list` returns a list unchanged and wraps anything else in a one-element list |
| ConfigTree.ToListIdempotent | backup.py:413-417 | `to_list(to_list(v)) == to_list(v)` |
| ConfigTree.DeepMergeCases | backup.py:443-476 | `None` on either side yields the other side; a list absorbs the update; a dictionary is appended to a new list; two dictionaries merge; two other values make a pair |
| ConfigTree.MergeFromSpec | backup.py:469-475 | merging dictionaries gives shared keys the merged value, `src`'s own keys `src`'s value and new keys `upd`'s value |
| ConfigTree.MergeFromPrefix | backup.py:469-475 | the keys of `src` keep their places and the new keys of `upd` follow |
| ConfigTree.MergeFromKeys | backup.py:469-475 | the merged keys are the keys of either side |
| ConfigTree.MergeFromUnique | backup.py:469-475 | merging keeps the keys distinct |
| ConfigTree.DeepMergeDicts | backup.py:461-475 | `deep_merge` of two dictionaries, key by key, with the values above |
| ConfigTree.MergeValues | backup.py:443-476 | the copying, updating implementation computes `deep_merge` |
| ConfigTree.MergeDicts | backup.py:469-475 | the entry loop computes the dictionary merge |
| PyStr.IndentSingleLine | backup.py:373-391 | `indent` of a text without line breaks prefixes it with two spaces |
| PyStr.SplitLinesNoBreaks | backup.py:389 | no line of `splitlines()` holds a line break |
| PyStr.SplitJoin | backup.py:718 | joining the pieces of `split` with the separator gives back the string |
| PyStr.ZeroPadRoundTrip | backup.py:730 | a zero-padded number reads back as itself |
| Slug.SlugifySpec | backup.py:2226-2234 | a prefix slug holds only letters, digits and single `_` separators, has no `_` at either end, and keeps the letters and digits of its input in order |
| Slug.SlugifyIdempotent | backup.py:2226-2234 | slugifying a slug changes nothing |
| Slug.FilenamePrefixNotExclude | backup.py:2226-2229 | a files action never gets the default name `exclude`, which becomes `file_exclude` |
| Slug.DbPrefixOfType | backup.py:2231-2234 | a database action's default name is the slug of the part before the first `:` |
| Actions.KindOf | backup.py:2270-2294 | a recognised type is the `db_type` of its class, each of `mysql`, `postgres` and `mongo` is recognised, and the `db_type` of a class reads back as that class |
| ActionParse.CommonEntry | backup.py:2189-2218 | a string key that is none of the four known ones is refused |
| ActionParse.ParseActionCommon | backup.py:2173-2223 | an accepted section always yields a prefix |
| ActionParse.ParseActionCommonLoop | backup.py:2185-2223 | the loop computes `_parse_action_common` |
| ActionParse.CommonEntryValid | backup.py:2194-2216 | one accepted entry keeps the accepted fields valid |
| ActionParse.CommonFromValid | backup.py:2189-2218 | the loop keeps the accepted fields valid |
| ActionParse.ParseActionCommonValid | backup.py:2194-2216 | an accepted ssh user matches `^[a-z0-9]+$`, an accepted ssh key exists and an accepted destination folder is absolute |
| ActionParse.CommonPrefixUntouched | backup.py:2207-2210 | entries that do not name `prefix` leave the prefix alone |
| ActionParse.DefaultPrefix | backup.py:2220-2221 | without a `prefix` key, the prefix is the server name |
| ActionParse.UnknownKeyFails | backup.py:2193-2218 | an unknown key, the empty key included, is a `RuntimeError` naming the key and the server |
| ActionParse.ExclusionsLoop | backup.py:2251-2254 | the loop computes the kept exclusions |
| ActionParse.ExclusionsMembers | backup.py:2251-2254 | the kept exclusions are exactly the listed strings that start with the backed-up folder's text (a plain string-prefix test) |
| ActionParse.ExclusionSiblingKept | backup.py:2251-2254 | for the folder `/var/www`, the exclusion `/var/www2/cache` is kept, since the test is on text and not on path components |
| ActionParse.FileActionShape | backup.py:2236-2256 | an accepted files action backs up an absolute folder, excludes only listed strings that start with its text, has the stripped prefix and the given or default name, and no storage yet |
| ActionParse.DbActionAccepted | backup.py:2259-2295 | a database action is built if and only if `db_info` is well formed, the common keys are accepted and the name is a string or absent |
| ActionParse.DbActionShape | backup.py:2259-2295 | an accepted database action has the type, port (0 to 65534) and database name of its `db_info`, the given or default name and the stripped prefix |
| ActionParse.DbInfoFields | backup.py:2264 | `type:port:database` splits into its three fields |
| ActionParse.DbFieldsRead | backup.py:2268-2272 | a type name and a decimal port read as themselves |
| ActionParse.DbPortBound | backup.py:2272-2275 | a decimal port is accepted up to 65534 and refused from 65535 on |
| StorageParse.RenamedKey | backup.py:2124 | the stored key always starts with the section prefix |
| StorageParse.RenamedOk | backup.py:2120-2125 | the sub-dictionary is spread if and only if all its keys are known |
| StorageParse.RenamedUntouched | backup.py:2120-2125 | a key that no sub-dictionary entry is renamed to keeps its value |
| StorageParse.RenamedLastWins | backup.py:2120-2125 | a renamed key holds the value of the last entry renamed to it |
| StorageParse.SpreadAbsent | backup.py:2116 | without a sub-dictionary, the section is read as it is |
| StorageParse.LocalStorageShape | backup.py:2113-2139 | an empty section gives no storage; otherwise one local storage, with the absolute folder stored under `local_history_folder` |
| StorageParse.LocalFolderRelative | backup.py:2134-2135 | a relative local folder is refused with the source's message |
| StorageParse.GlacierStorageShape | backup.py:2142-2170 | an empty section gives no storage; otherwise one Glacier storage, with vault `<region>:<name>` and the default or resolved index file |
| StorageParse.GlacierVaultKeyRenamed | backup.py:2151-2155 | `glacier_vault` is accepted but stored as `aws_glacier_glacier_vault` |
| StorageParse.GlacierVaultMissing | backup.py:2151-2159 | so a vault given only as `glacier_vault` is reported missing |
| StorageParse.SpreadSection | backup.py:2116-2125 | `del info[section]` followed by the assignments computes the spread dictionary |
| StorageParse.ParseLocalStorageList | backup.py:2113-2139 | the in-place parser computes the local storage list; an empty `info` stays empty, and a successful spread leaves `info` as the spread dictionary, with `local_history`'s entries renamed into it |
| StorageParse.ParseGlacierStorageList | backup.py:2142-2170 | the in-place parser computes the Glacier storage list; an empty `info` stays empty, and a successful spread leaves `info` as the spread dictionary, with `aws_glacier`'s entries renamed into it |
| FreqParse.FreqEntry | backup.py:2313-2334 | an accepted entry has a string tier key and a readable count; it sets that tier and no other |
| FreqParse.WithTier | backup.py:2325-2332 | setting a tier changes that tier only |
| FreqParse.ParseFreqLoop | backup.py:2298-2335 | the loop computes `_parse_freq` |
| FreqParse.FreqValueRange | backup.py:2318-2323 | a count that was read is `all` (-1), `no` (0) or a natural number |
| FreqParse.FreqValueOfInt | backup.py:2317-2323 | a natural number is its own count and a negative one is refused |
| FreqParse.FreqValueWords | backup.py:2318-2321 | `all` and `no`, in any case and with surrounding white space, read as -1 and 0 |
| FreqParse.EntryOkSpec | backup.py:2313-2334 | an entry is accepted if and only if its key is a string naming a tier and its value is readable |
| FreqParse.FreqFromOk | backup.py:2312-2334 | a memory dictionary is read if and only if every entry is accepted |
| FreqParse.FreqUntouched | backup.py:2325-2334 | a tier that no entry names keeps the value it had before the loop |
| FreqParse.FreqLastWins | backup.py:2325-2334 | a tier ends with the count of the last entry naming it |
| FreqParse.ParseFreqString | backup.py:2309-2310 | a string section keeps its one tier without limit, and an unknown name is refused |
| FreqParse.FreqFromRange | backup.py:2312-2334 | the loop keeps every tier at -1 or more |
| FreqParse.ParseFreqShape | backup.py:2309-2335 | a section that is neither a string nor a dictionary gives `None`; a parsed frequency has every tier at -1 or more |
| ReportConf.ToBoolSpec | backup.py:316-370 | `to_bool` converts exactly what `ll_bool` accepts: booleans as themselves, 0 and 1, and the yes and no words |
| ReportConf.UrlsFrom | backup.py:2482-2485 | the url loop appends the urls in order and fails if and only if some item is not a string |
| ReportConf.PostOfFalse | backup.py:2503-2506 | `val.lower().strip() == "False"` never holds, so `method` always sets `post_method` to false |
| ReportConf.ResolveSpec | backup.py:2513-2523 | resolving the method and JSON keeps what was given, fills in what was not, and refuses only JSON with GET |
| ReportConf.CollectUrls | backup.py:2482-2485 | the url loop computes the url list |
| ReportConf.UrlEntry | backup.py:2481-2485 | a `url` field appends its urls |
| ReportConf.ReadField | backup.py:2479-2511 | one iteration of the field loop computes the field's effect |
| ReportConf.ParseWebhookLoop | backup.py:2461-2524 | the loop computes `_parse_webhook_report` |
| ReportConf.WebhookFromPost | backup.py:2479-2511 | the `post_method` the field loop reads is false or absent |
| ReportConf.WebhookMethod | backup.py:2503-2523 | a webhook that names its method is sent with GET and without JSON; one that does not is sent with POST |
| ReportConf.MethodWithJsonRefused | backup.py:2503-2523 | with a `method` field, `json: true` is always refused |
| ReportConf.WebhookOfUrl | backup.py:2469-2524 | a plain url is a POST webhook with a JSON body |
| ReportConf.Webhooks | backup.py:2056-2058 | one target per item of `webhook` data |
| ReportConf.HookTargets | backup.py:2056-2058 | one target per parsed item |
| ReportConf.HookTargetsSpec | backup.py:2056-2058 | the targets exist if and only if every item parses, each the parse of its item, in order; otherwise the error is an item's |
| ReportConf.WebhooksSpec | backup.py:2056-2058 | each webhook target is the parse of its item, in order |
| ReportConf.ParseReports | backup.py:2038-2063 | the report loop computes the report targets |
| ReportConf.ReportTargetsErr | backup.py:2038-2063 | an error in a prefix of the report list is the error of the whole list |
| ReportConf.ReportItemSpec | backup.py:2042-2061 | a report dictionary gives one target of its type per item of its data, and any other key is refused |
| ConfigLoad.Classify | backup.py:1946-1957 | a top-level entry is refused if and only if its key is not a string, or it is a non-empty key holding a scalar |
| ConfigLoad.ClassifyLoop | backup.py:1946-1957 | the sorting loop computes the sections |
| ConfigLoad.ClassifiedErrorStays | backup.py:1946-1957 | the first refusal decides the error of the sorting |
| ConfigLoad.ClassifiedErr | backup.py:1946-1957 | the sorting fails if and only if some entry is refused |
| ConfigLoad.AddServerShaped | backup.py:1957 | adding a server section keeps the servers a dictionary of lists and adds that name |
| ConfigLoad.ClassifyShaped | backup.py:1946-1957 | one sorting step keeps the shape and adds the server the entry names |
| ConfigLoad.ClassifiedServers | backup.py:1941-1957 | after sorting, the servers are exactly the names of the server entries, each with a list, and the reports are a list |
| ConfigLoad.OrganisedCommon | backup.py:1945-1958 | the top-level common keys are merged with the `common`/`global` sections, key by key |
| ConfigLoad.UpdateFromSpec | backup.py:1965 | after `update`, a key has the value the update gives it, or keeps its own |
| ConfigLoad.ServerInfoSpec | backup.py:1964-1965 | a server entry's own keys win over the common ones |
| ConfigLoad.UpdatePairsOk | backup.py:1965 | `update` with a sequence whose every element is a pair equals the key-by-key update with those pairs |
| ConfigLoad.UpdatePairsFirstError | backup.py:1965 | `update` with a sequence raises the exception of its first element that is not a two-item sequence with a hashable first item |
| ConfigLoad.ServerInfoStr | backup.py:1964-1965 | a string description leaves the common keys unchanged when empty and raises `ValueError` otherwise |
| ConfigLoad.ServerInfoPairList | backup.py:1964-1965 | a list of two-item lists updates the common keys pair by pair |
| ConfigLoad.ActionParamsSpec | backup.py:1969-1977 | the action parameters hold none of the extracted keys and every other key unchanged |
| ConfigLoad.FilesOf | backup.py:1979-1992 | an accepted `files` block leaves a dictionary in `files_info` |
| ConfigLoad.FilesOfSpec | backup.py:1979-1992 | a string or non-empty list `files` fails with `TypeError`, an empty list gives no action, a scalar is refused |
| ConfigLoad.DbEntriesSpec | backup.py:2003-2019 | the `files_info` check never refuses; a dictionary gives its entries, an empty list none, anything else `AttributeError` |
| ConfigLoad.BuiltSpec | backup.py:1995-2001 | one action per entry, each the parsed one with the entry's storages, and a failure if and only if some entry fails |
| ConfigLoad.FileActionsSpec | backup.py:1995-2001 | every files action belongs to the server, backs up a folder and goes to the entry's storages |
| ConfigLoad.FileActionParsed | backup.py:2236-2256 | a parsed files action belongs to the server and has no storage yet |
| ConfigLoad.DbActionsSpec | backup.py:2004-2025 | every database action belongs to the server, dumps as the resolved `db_user`, and goes to the entry's storages |
| ConfigLoad.InfoActionsServer | backup.py:1962-2025 | the actions of one description all belong to the server |
| ConfigLoad.ListActionsServer | backup.py:1962-2025 | the actions of all descriptions of a server belong to it |
| ConfigLoad.ServersActionsServer | backup.py:1961-2025 | every action belongs to one of the servers |
| ConfigLoad.AddStorages | backup.py:1998-1999 | `add_storage` appends the entry's storages to the action |
| ConfigLoad.BuildLoop | backup.py:1995-2001 | the action loop computes the built actions |
| ConfigLoad.InfoActionsLoop | backup.py:1963-2025 | the body of the description loop computes the description's actions |
| ConfigLoad.ServersActionsLoop | backup.py:1961-2025 | the nested loops compute the actions of all servers |
| ConfigLoad.ListActionsLoop | backup.py:1962-2025 | the description loop computes a server's actions |
| ConfigLoad.ClashWith | backup.py:2029-2036 | the inner loop finds the first later action with the same `full_name`, or shows there is none |
| ConfigLoad.FirstClash | backup.py:2028-2036 | the nested loops find a clashing pair if and only if one exists |
| ConfigLoad.FirstClashOrder | backup.py:2028-2036 | the pair reported is the first in loop order, and its second action comes later |
| ConfigLoad.CheckDuplicates | backup.py:2028-2036 | the nested loops compute the first clash |
| ConfigLoad.LoadActionsSpec | backup.py:1961-2036 | the actions are those of the servers exactly when no two share a `full_name`; otherwise the load is refused with a configuration error |
| ConfigLoad.LoadAccepted | backup.py:1945-1957 | an accepted configuration is a dictionary none of whose entries is refused |
| ConfigLoad.LoadDistinct | backup.py:2028-2036 | no two accepted actions share a `full_name` |
| ConfigLoad.LoadServers | backup.py:1946-1961 | every accepted action belongs to a server named by a top-level entry |
| ConfigLoad.LoadConfParts | backup.py:1920-2065 | an accepted load is made of sorted sections and their actions |
| ConfigLoad.LoadConfLoop | backup.py:1920-2065 | the step-by-step load computes `_load_conf` |
| Selection.MatchLiteral | backup.py:2562-2590 | a pattern without wildcards matches only itself |
| Selection.MatchAll | backup.py:2562-2590 | `*` matches every name |
| Selection.MatchPrefix | backup.py:2562-2590 | a literal prefix followed by `*` matches exactly the names that start with it |
| Selection.QueryOf | backup.py:2559-2560 | a target with two colons fails the unpacking with `ValueError`; one without a colon is a plain pattern |
| Selection.PickedSpec | backup.py:2559-2588 | the picked positions are increasing and are exactly the selected actions |
| Selection.GlobTargetSpec | backup.py:2546-2591 | `glob_target` returns, in order and once each, the selected actions, and fails with `Unknown target` if and only if none is selected |
| Selection.GlobTargetLoop | backup.py:2546-2591 | the loop computes `glob_target` |
| Selection.UnionOfSpec | backup.py:2607-2611 | the union fails if and only if some target fails, and otherwise holds what some target selects |
| Selection.GlobTargetsSpec | backup.py:2594-2611 | an empty list selects every action (or none); otherwise `glob_targets` fails exactly when a target fails and selects what some target selects |
| Selection.GlobTargetsLoop | backup.py:2594-2611 | the loop computes `glob_targets` |
| Reports.ServerIndex | backup.py:956 | the index found is the first with that server, or -1 when there is none |
| Reports.ExtendSpec | backup.py:955-968 | adding a message appends it to that server's list only; a new server goes last and keys stay distinct |
| Reports.TotalExtend | backup.py:955-968 | adding messages adds their number to the total |
| Reports.AllEmptyTotal | backup.py:1021-1031 | all lists empty if and only if the total is 0 |
| Reports.TotalGet | backup.py:1003-1008 | a server's list is at most the total |
| Reports.IsSuccessSpec | backup.py:1017-1031 | empty means no message at all; success means no issue and at least one warning or success |
| Reports.CollectHas | backup.py:983-1001 | `by_server` has a server exactly when the report does |
| Reports.CollectGet | backup.py:983-1001 | a loop of `by_server` appends the server's messages, tagged with their level |
| Reports.ByServerSpec | backup.py:983-1001 | every server in `by_server` has its issues, then warnings, then successes, tagged `error`, `warning`, `server` |
| Reports.Report.constructor | backup.py:950-953 | the report starts empty |
| Reports.Report.AddIssue | backup.py:955-958 | `add_issue` appends to the server's issues only |
| Reports.Report.AddSuccess | backup.py:960-963 | `add_success` appends to the server's successes only |
| Reports.Report.AddWarning | backup.py:965-968 | `add_warning` appends to the server's warnings only |
| Reports.Report.IssueCount | backup.py:1003-1008 | `issue_count` is the total number of issues |
| Reports.Report.WarningCount | backup.py:1010-1015 | `warning_count` is the total number of warnings |
| Reports.Report.IsEmpty | backup.py:1021-1031 | the loops compute `is_empty` |
| Reports.Report.IsSuccess | backup.py:1017-1019 | `is_success` is "not empty and no issue" |
| Reports.Report.ByServer | backup.py:983-1001 | the loops compute `by_server` |
| Reports.CountAll | backup.py:1003-1015 | the counting loop computes the total |
| Reports.NoneNonEmpty | backup.py:1022-1030 | one loop of `is_empty` returns true exactly when every list is empty |
| Reports.CollectLoop | backup.py:983-1001 | one loop of `by_server` computes the tagged collection |
| Reports.HeaderSpec | backup.py:1530-1539 | the first line gives the error and warning counts, `success`, or nothing for an empty report |
| Reports.SubjectSpec | backup.py:1547-1551 | the subject reads `Backup: success` exactly for a successful run |
| Reports.ServerLineOfName | backup.py:1541 | a server without line breaks gives one line indented once |
| Reports.InfoLineOfMessage | backup.py:1543 | a message without line breaks gives one line indented twice |
| Reports.InfoLinePlain | backup.py:1543 | a single-line entry renders as `    level: info` and a line break |
| Reports.ServerBlockPlain | backup.py:1540-1543 | a single-line server block is the line `  server: `, then its entries' lines in order |
| Reports.BodyPlain | backup.py:1540-1544 | for any `by_server` whose server names, levels and messages are single lines, the server blocks are, server by server in order, the server line indented once followed by each entry indented twice |
| Reports.CollectSingleLine | backup.py:985-989 | a `by_server` loop over single-line servers and messages, with a single-line level, keeps every server name, level and message single-line |
| Reports.DefaultContentPlain | backup.py:1530-1544 | for a report whose server names and messages are single lines, the content is the header followed by the written-out server blocks of `by_server` |
| Reports.AppendBody | backup.py:1540-1544 | the outer loop computes the server blocks |
| Reports.GetDefaultContent | backup.py:1521-1545 | the method computes `_get_default_content` |
| Reports.FormatReport | backup.py:1547-1552 | `_format_report` gives the subject and the default content |
| Probes.VaultCheck | backup.py:821-836 | a vault check never raises and gives at most one message |
| Probes.FolderFirstCheck | backup.py:1117-1127 | an untested folder is tested once, the memo records the outcome, and a failure gives one message |
| Probes.FolderLaterCheck | backup.py:1118-1130 | a folder tested before is not tested again; its earlier failure is reported with "(see previous errors)" |
| Probes.FolderCheckTwice | backup.py:1117-1130 | checking a folder twice tests it once and reports failure again exactly when the test failed |
| Probes.VaultFirstCheck | backup.py:821-834 | an untested vault is tested once and the memo records the outcome |
| Probes.VaultLaterCheck | backup.py:822-836 | a tested vault is not tested again |
| Probes.FolderCheckSound | backup.py:1117-1130 | a folder check keeps the memo sound: every real test is recorded, and no key is tested twice |
| Probes.VaultCheckSound | backup.py:821-836 | a vault check keeps the memo sound |
| Probes.DestAccessSound | backup.py:1088-1096 | checking an action's destinations keeps the memo sound |
| Probes.DestAccessRaises | backup.py:1088-1096 | `check_dest_access` raises only for a missing destination folder whose test fails; its messages start with the folder's |
| Probes.Tagged | backup.py:2651-2659 | each message is paired with its action |
| Probes.TestStepRepeats | backup.py:2645-2659 | when `check_dest_access` raises, the action's source messages are reported twice |
| Probes.TestStepClean | backup.py:2645-2659 | an action adds no error if and only if both checks pass without a message |
| Probes.TestStepNames | backup.py:2645-2659 | every error of a round names that round's action |
| Probes.TestRunSpec | backup.py:2642-2660 | every error names one of the actions, and the memo stays sound over the whole run |
| Probes.WriteTestCache.IsFolderSuccess | backup.py:1481-1487 | `None` exactly for an untested folder, else the recorded outcome |
| Probes.WriteTestCache.SetFolderSuccess | backup.py:1490-1491 | records a folder outcome and nothing else |
| Probes.WriteTestCache.IsGlacierSuccess | backup.py:1494-1500 | `None` exactly for an untested vault, else the recorded outcome |
| Probes.WriteTestCache.SetGlacierSuccess | backup.py:1503-1504 | records a vault outcome and nothing else |
| Probes.CheckFolderWritable | backup.py:1117-1130 | the method computes the folder check on the memo and the real tests |
| Probes.CheckGlacierAccess | backup.py:821-836 | the method computes the vault check |
| Probes.CheckWritable | backup.py:768-769 | `check_writable` tests a local folder like a destination folder and a Glacier storage by its vault (lines 802-803) |
| Probes.CheckDestAccess | backup.py:1088-1096 | the method computes `check_dest_access` |
| Probes.TestBackup | backup.py:2642-2660 | the loop computes `test_backup` |
| Commands.CleanRemovesOnlyOld | backup.py:2629-2639 | `clean_archives` removes only archives that a storage listed and does not keep |
| Commands.CleanRemovesAllOld | backup.py:2629-2639 | a `clean_archives` that raises nothing removes every listed archive its storage does not keep |
| Commands.ListLinesMark | backup.py:2620-2626 | each archive gets one line, marked `[old]` exactly when `clean_archives` would remove it |
| Commands.FirstFailure | backup.py:1180-1187 | the saving loop stops at the first storage whose `should_save` raises or whose save fails |
| Commands.SaveFromSpec | backup.py:1180-1187 | the saving loop saves on every due storage before the first failure, and fails exactly when some storage fails |
| Commands.RunBackupSaves | backup.py:1157-1189 | a backup that goes through saves one archive, under `_archive_name`'s name, on each storage due today, in order |
| Commands.DueSpec | backup.py:1181-1182 | the archives due are exactly the storages whose `should_save` holds |
| Commands.CleanArchives | backup.py:2629-2639 | the command computes the cleaning, and the world's removals are its log |
| Commands.ListArchives | backup.py:2614-2626 | the command computes the listing lines |
| Commands.SaveAll | backup.py:1180-1187 | the saving loop computes the saves |
| Commands.RunBackupOf | backup.py:1157-1189 | `run_backup` fetches the data, then runs the saving loop |
| Commands.DoBackup | backup.py:2694-2709 | exactly one message is filed for the action: an issue when cleaning or backup raised, a success otherwise; the world records the cleaning's removals and, only when the cleaning did not raise, the backup's saves |
| Rocketchat.ListedSpec | conf_examples/default/mapping/rocketchat.py:11-37 | the listed servers are, in order, exactly those with messages |
| Rocketchat.AttachmentsSpec | conf_examples/default/mapping/rocketchat.py:11-19 | one attachment per server with messages, in order, each with that server's messages |
| Rocketchat.AllAttachmentsOrder | conf_examples/default/mapping/rocketchat.py:10-37 | issue attachments come first, then warnings, then successes, each in the order of its list |
| Rocketchat.SummarySuccess | conf_examples/default/mapping/rocketchat.py:5-8 | the text announces success exactly when the report is successful |
| Rocketchat.PayloadSpec | conf_examples/default/mapping/rocketchat.py:1-38 | the payload has the user name, the text and the attachments, and every other entry of `params` unchanged and in place |
| Rocketchat.AppendAttachments | conf_examples/default/mapping/rocketchat.py:11-37 | one loop appends its list's attachments to `params["attachments"]` |
| Rocketchat.MapReport | conf_examples/default/mapping/rocketchat.py:1-38 | `map_report` fills `params` in place with the payload and returns that same dictionary |

## Left out

- YAML loading, `include` directives, `_get_loader`, `_parse_includes` and `_include`: the model starts from the loaded tree.
- The email, file and syslog report parsers: these targets keep their raw configuration. Only the webhook parser is modelled.
- Report delivery (`report` of each target, `do_report`, `test_reports`, Jinja templates, SMTP, syslog, HTTP): these are I/O.
- `check_src_access`, ssh, rsync, tar, database dumps, `cp`, `os.remove`, AWS calls and the Glacier index file I/O: these are oracles of `Commands.World`, or the parameter `src` of `test_backup`.
- `MappingFunction`: importing and calling a user's Python file is outside the model. `map_report` stands for the one mapping shipped.
- `main` and argument parsing: these are I/O.
- `TimeReference`: the process-wide reference date is the parameter `today`.
- `ll_float` and floating point: only integer literals are modelled as numbers, in `ReportConf.FloatInt`.
- `repr`, `to_str` of objects, and exception texts: values print through `ConfigTree.ToStr`, an action's `to_str` is a parameter of the duplicate check, and exceptions are kept by kind.
- `str.lower` covers ASCII letters only: there is no Unicode case mapping.
- `fnmatch` character classes `[...]`: only `*` and `?` are modelled.
- Selection.GlobTargetsLoop: returns a set of positions, because `list(set(...))` gives no defined order.
- StorageParse.ParseLocalStorageList and StorageParse.ParseGlacierStorageList: when the spread raises, the partly spread `info` is not stated, because the exception ends the load and `info` is never read again.
- Dictionary keys `True` and `1`, and `False` and `0`: Python treats each pair as one key, the model as two.
- Aliasing: the result of `deep_merge` shares sub-values with its inputs, and YAML anchors share nodes; values have no identity in the model.
- The `import requests` guard of `_parse_webhook_report`: the model assumes python-requests is installed, so a webhook section never raises `ConfigError` for its absence.
- Actions are values: `add_storage` returns the updated action, since no other reference to it exists while the configuration loads.
- `__str__`, `small_descr` of storages, and log lines other than those of `list_archives`: these only feed logs.
