# yum metadata parser: decoders, debug handlers and cache synchronisation

This project models three parts of the C metadata parser behind yum's sqlite cache.

- **The three repository-metadata decoders** in `xml-parser.c`. Each is a SAX
  context fed the events of one document: start tag with ordered attribute
  pairs, end tag, and character data. The *primary* decoder has four states
  (top level, package, format, dependency list). It fills a package record from
  attributes and leaf text, builds four dependency lists and a file list, and
  drops `rpmlib(` capabilities. The *filelists* decoder takes a package's
  identity from the `<package>` attributes and builds its file list. The
  *other* decoder does the same for changelog entries, which it reverses before
  emitting. Each `</package>` hands one record to the callback. A record still
  open when the document ends is reported as lost and never emitted.
- **The debug-handler registry** of `debug.c`. It is a newest-first list of
  (callback, user data, id) entries. It supports add (id = head's id + 1, or 1),
  remove (first matching id, else a warning) and dispatch (every handler once,
  in list order).
- **The cache bookkeeping** of `sqlitecache.c`. Every record a decoder emits is
  noted in `all_packages`. It is written, and counted in `add_count`, only when
  its id is not in `current_packages`. After parsing, every stored id the
  document no longer lists is deleted, and counted in `del_count`.

Each decoder is modelled twice:

- **As values**: a `Ctx` datatype with one function per handler (`OnStart`,
  `OnEnd`, `OnCharacters`), a `Step` per event and a `Run` over an event
  sequence.
- **As a class** holding the C context's fields (`PrimaryParser`,
  `FilelistParser`, `OtherParser`). Each handler method is proved to change the
  fields exactly as the corresponding function says.

The drivers `ParsePrimary`, `ParseFilelists` and `ParseOther` feed a fresh
context every event and are proved to emit `Run(Init, events).emitted`.

Other modelling choices:

- Attribute scans are loops over the pairs, proved equal to `Lookup`: the value
  of the last pair carrying a key.
- Package records are values: a record is owned by one context and freed after
  the callback.
- Lists the C code builds with `g_slist_prepend` are sequences extended at the
  front.
- The callback is the ghost of an append to `emitted`. Database writes and
  deletes are appends to a `writes` log. Debug messages are appends to the
  registry's `log` of callback invocations.

Files:

| file | contents |
|---|---|
| `xml.dfy` | events, element trees and their flattening |
| `package.dfy` | the package record, attribute lookup, the shared scans |
| `primary.dfy`, `filelist.dfy`, `other.dfy` | the decoders |
| `primary_props.dfy`, `filelist_props.dfy`, `other_props.dfy` | what the decoders guarantee |
| `debug.dfy` | the handler registry |
| `sqlitecache.dfy` | the cache bookkeeping |

## Model

| member | source | states |
|---|---|---|
| PackageModel.Lookup | xml-parser.c:81-91 | The scanned value of a key is absent exactly when no pair carries the key. Otherwise it is the value of a pair with that key after which no other pair carries it. |
| PackageModel.LastPairWins | xml-parser.c:533-543 | When a key repeats in one tag, the last occurrence decides, whatever pairs with other keys follow it. |
| PackageModel.ReadVersion | xml-parser.c:814-826 | The `<version>` scan stores the last `epoch`, `ver` and `rel` values and leaves every other field alone. The same loop appears at 81-91 and 560-570. |
| PackageModel.ReadIdentity | xml-parser.c:530-543 | The `<package>` scan of filelists and other stores the last `pkgid`, `name` and `arch` values. The other decoder repeats the loop at 785-798. |
| PackageModel.ClosedFile | xml-parser.c:629-636 | A closed file is named by the buffered text. Its type is the open tag's `type` when there was one, otherwise "file". |
| PackageModel.Reverse | xml-parser.c:874-875 | The reversed list has the same length, with element i taken from position n-1-i. |
| PackageModel.ReverseReverse | xml-parser.c:874-875 | Reversing twice restores the list. |
| PackageModel.ReversePrepend | xml-parser.c:897 | Prepending an entry and then reversing is the same as reversing and then appending it. |
| PackageModel.ReverseAppend | xml-parser.c:874-875 | Reversing a concatenation reverses each part and swaps them. |
| Xml.LacksHasNoTag | xml-parser.c:383-402 | A document fragment with no element of a given name delivers no start or end event with that name. |
| Primary.AddDep | xml-parser.c:244-245 | Adding a dependency prepends it to the selected list. The other three lists and every other field are unchanged. |
| Primary.ReadChecksumType | xml-parser.c:95-101 | The `<checksum>` scan equals storing the last `type` value. |
| Primary.ReadTime | xml-parser.c:105-114 | The `<time>` scan equals storing the last `file` and `build` values. |
| Primary.ReadSize | xml-parser.c:117-127 | The `<size>` scan equals storing the last `package`, `installed` and `archive` values. |
| Primary.ReadLocation | xml-parser.c:131-137 | The `<location>` scan equals storing the last `href` value. |
| Primary.ReadHeaderRange | xml-parser.c:153-163 | The `<rpm:header-range>` scan equals storing the last `start` and `end` values. |
| Primary.ReadFileType | xml-parser.c:179-190 | Each `type` pair allocates a fresh file cursor carrying that type, so the last one decides. Without a `type` pair the cursor is left as it was. |
| Primary.DraftIsLookup | xml-parser.c:209-240 | Each field collected by the entry loop is the last value of its key. |
| Primary.ReadEntry | xml-parser.c:200-246 | The `rpm:entry` scan stops at the first `name` beginning with `rpmlib(` and contributes nothing. Otherwise it contributes one dependency made of the last value of each recognised key. It requires a kept entry to carry a `name`. |
| Primary.OnToplevelStart | xml-parser.c:51-62 | `<package>` opens a record only when none is open (the g_assert at 56). Every handler keeps that invariant. |
| Primary.OnPackageStart | xml-parser.c:65-139 | Package-state start tags keep the invariant that a record is open exactly outside top level. The tag-by-tag effect is stated by `PrimaryProps.StartTransitions` and `PrimaryProps.UnknownTagsIgnored`. |
| Primary.OnFormatStart | xml-parser.c:142-191 | Format-state start tags keep the record and dependency cursor consistent. Their effect is stated by `PrimaryProps.StartTransitions` and `PrimaryProps.UntypedFileDefaultsToFile`. |
| Primary.OnDepStart | xml-parser.c:194-248 | Dependency-state start tags keep the context consistent. Their effect is stated by `PrimaryProps.EntryAddsOneDependency`. |
| Primary.OnStart | xml-parser.c:251-275 | A start tag clears the buffer, dispatches on the state and keeps the context consistent. |
| Primary.OnPackageEnd | xml-parser.c:278-327 | Package-state end tags keep the context consistent, including the return to top level on `</package>`. Their effect is stated by `PrimaryProps.PackageEndEmitsRecord` and `PrimaryProps.PackageLeafClose`. |
| Primary.OnFormatEnd | xml-parser.c:330-371 | Format-state end tags keep the context consistent. Their effect is stated by `PrimaryProps.FormatLeafStoresText` and `PrimaryProps.FileCloseAddsOneFile`. |
| Primary.OnDepEnd | xml-parser.c:374-380 | Dependency-state end tags keep the context consistent. Their effect on the state is stated by `PrimaryProps.EndTransitions`. |
| Primary.OnEnd | xml-parser.c:383-402 | An end tag dispatches on the state, clears the buffer and keeps the context consistent. |
| Primary.OnCharacters | xml-parser.c:405-410 | Character data only extends the buffer and keeps the context consistent. |
| Primary.Step | xml-parser.c:251-410 | Every event the handlers accept keeps the context consistent. |
| Primary.Run | xml-parser.c:470-494 | A whole accepted event stream keeps the context consistent. |
| Primary.RunAppend | xml-parser.c:470-494 | A concatenated stream is accepted exactly when its first part is accepted and the second part is accepted from where the first left off. Running it is running the two parts in turn. |
| Primary.PrimaryParser.constructor | xml-parser.c:477-483 | The driver's fresh context is at top level with no record, no cursors and an empty buffer. |
| Primary.PrimaryParser.ToplevelStart | xml-parser.c:51-62 | The handler leaves the fields as `OnToplevelStart` specifies and keeps the class invariant. |
| Primary.PrimaryParser.PackageStart | xml-parser.c:65-139 | The handler leaves the fields as `OnPackageStart` specifies. |
| Primary.PrimaryParser.FormatStart | xml-parser.c:142-191 | The handler leaves the fields as `OnFormatStart` specifies. |
| Primary.PrimaryParser.DepStart | xml-parser.c:194-248 | The handler leaves the fields as `OnDepStart` specifies. |
| Primary.PrimaryParser.StartElement | xml-parser.c:251-275 | The handler leaves the fields as `OnStart` specifies. |
| Primary.PrimaryParser.PackageEnd | xml-parser.c:278-327 | The handler leaves the fields as `OnPackageEnd` specifies. |
| Primary.PrimaryParser.FormatEnd | xml-parser.c:330-371 | The handler leaves the fields as `OnFormatEnd` specifies. |
| Primary.PrimaryParser.DepEnd | xml-parser.c:374-380 | The handler leaves the fields as `OnDepEnd` specifies. |
| Primary.PrimaryParser.EndElement | xml-parser.c:383-402 | The handler leaves the fields as `OnEnd` specifies. |
| Primary.PrimaryParser.Characters | xml-parser.c:405-410 | The handler leaves the fields as `OnCharacters` specifies. |
| Primary.ParsePrimary | xml-parser.c:470-494 | The driver emits exactly the records of `Run(Init, events)` and reports a lost package exactly when a record is still open at the end. |
| PrimaryProps.BufferHoldsCharsSinceLastTag | xml-parser.c:255-256 | After any stream, the buffer holds exactly the characters received since the most recent start or end tag. The buffer is also cleared at 401 and appended at 409. |
| PrimaryProps.PackageEndEmitsRecord | xml-parser.c:284-291 | The callback fires with the open record exactly on `</package>` in the package state, and no other event emits. Afterwards the decoder is at top level with no record. |
| PrimaryProps.StartTransitions | xml-parser.c:55-61 | `<package>` at top level opens an empty record in the package state, and other tags there change nothing. `<format>` moves package to format. The four `rpm:` list tags move format to dependency. Nothing else moves. The other handlers are at 76-78 and 165-177. |
| PrimaryProps.EndTransitions | xml-parser.c:378-379 | End tags at top level change nothing. `</package>` returns to top level and `</format>` to the package state. Every close other than `rpm:entry` leaves the dependency state. The other handlers are at 289-291, 369-370 and 387-399. |
| PrimaryProps.UnknownTagsIgnored | xml-parser.c:65-139 | In the package state, start and end tags the handlers do not recognise only clear the buffer. |
| PrimaryProps.PackageLeafClose | xml-parser.c:294-310 | In the package state, a non-`package` close with an empty buffer leaves the context unchanged. A non-empty `</checksum>` stores the text as both the checksum value and the package id. |
| PrimaryProps.FormatLeafStoresText | xml-parser.c:336-355 | Closing `rpm:license`, `rpm:vendor`, `rpm:group`, `rpm:buildhost` or `rpm:sourcerpm` stores the buffered text, empty or not, in that field. The rest of the record, the file cursor and the format state are unchanged, and the buffer is cleared. |
| PrimaryProps.EntryAddsOneDependency | xml-parser.c:209-246 | An `rpm:entry` either is filtered and changes no list, or prepends exactly one dependency to the list chosen by the enclosing tag. The other three lists are unchanged. |
| PrimaryProps.StepKeepsClean | xml-parser.c:209-246 | No event adds an `rpmlib(` capability to the open record or to any emitted record. |
| PrimaryProps.StepKeepsLists | xml-parser.c:251-410 | Every event other than a kept `rpm:entry` and `</package>` leaves the four dependency lists and the emitted records unchanged. |
| PrimaryProps.NoInternalCapabilities | xml-parser.c:215-218 | Whatever the document, no dependency list of any record holds a name starting with `rpmlib(`. |
| PrimaryProps.FileCloseAddsOneFile | xml-parser.c:356-368 | `</file>` prepends exactly one file, named by the buffered text and typed by the cursor's type or else "file", and clears the cursor. |
| PrimaryProps.UntypedFileDefaultsToFile | xml-parser.c:184-188 | A `<file>` without a `type` allocates no cursor. The file closed afterwards is typed "file"; it is allocated at 357-358. |
| PrimaryProps.OpenWithoutPackageEnd | xml-parser.c:278-291 | Without a `</package>` event, an open record stays open and nothing is emitted. |
| PrimaryProps.PackageBodyKeepsPackageState | xml-parser.c:65-139 | The well-formed body of a package element returns the decoder to the package state without emitting. |
| PrimaryProps.FormatBodyKeepsFormatOrPackage | xml-parser.c:142-191 | Elements inside `<format>` leave the decoder in the format or package state without emitting. |
| PrimaryProps.PackageElementEmitsOnce | xml-parser.c:284-291 | A package element opened at top level produces exactly one callback, with the record its body built, and returns to top level. |
| PrimaryProps.EveryPackageEmittedOnce | xml-parser.c:470-494 | A document with N package elements, wrapped but not nested, produces exactly N callbacks appended to the earlier ones, and ends at top level. |
| PrimaryProps.TruncatedPackageIsLost | xml-parser.c:486-491 | A document cut off inside its last package element emits only the earlier records and leaves the last one open, so the driver drops it. |
| PrimaryProps.ExampleDocument | xml-parser.c:470-494 | A package with version 0/1.2/3, one required library and one untyped file yields one record with exactly those fields. |
| PrimaryProps.ProvidesInReverseDocumentOrder | xml-parser.c:244-245 | Entries x then y in `<rpm:provides>` come out as [y, x]. |
| Filelist.ReadFile | xml-parser.c:573-584 | The `<file>` scan allocates a file carrying the last `type` value. |
| Filelist.OnToplevelStart | xml-parser.c:517-545 | Top-level start tags keep the invariant that a record is open exactly outside top level. The identity a new record takes is stated by `FilelistProps.PackageOpenTakesIdentity`. |
| Filelist.OnPackageStart | xml-parser.c:548-585 | Package-state start tags keep the invariant. Their effect is stated by `FilelistProps.OneFile` and `FilelistProps.IdentityFixedInsidePackage`. |
| Filelist.OnStart | xml-parser.c:588-605 | A start tag clears the buffer, dispatches and keeps the invariant. |
| Filelist.OnPackageEnd | xml-parser.c:608-640 | Package-state end tags keep the invariant. They require a file cursor on `</file>`, which the handler dereferences. |
| Filelist.OnEnd | xml-parser.c:643-656 | An end tag dispatches, clears the buffer and keeps the invariant. |
| Filelist.OnCharacters | xml-parser.c:659-664 | Character data only extends the buffer. |
| Filelist.Step | xml-parser.c:588-664 | Every accepted event keeps the invariant. |
| Filelist.Run | xml-parser.c:724-750 | A whole accepted stream keeps the invariant. |
| Filelist.RunAppend | xml-parser.c:724-750 | Running a concatenation is running its parts in turn, with acceptance split the same way. |
| Filelist.FilelistParser.constructor | xml-parser.c:731-736 | The fresh context is at top level, empty. |
| Filelist.FilelistParser.ToplevelStart | xml-parser.c:517-545 | The handler leaves the fields as `OnToplevelStart` specifies. |
| Filelist.FilelistParser.PackageStart | xml-parser.c:548-585 | The handler leaves the fields as `OnPackageStart` specifies. |
| Filelist.FilelistParser.StartElement | xml-parser.c:588-605 | The handler leaves the fields as `OnStart` specifies. |
| Filelist.FilelistParser.PackageEnd | xml-parser.c:608-640 | The handler leaves the fields as `OnPackageEnd` specifies. |
| Filelist.FilelistParser.EndElement | xml-parser.c:643-656 | The handler leaves the fields as `OnEnd` specifies. |
| Filelist.FilelistParser.Characters | xml-parser.c:659-664 | The handler leaves the fields as `OnCharacters` specifies. |
| Filelist.ParseFilelists | xml-parser.c:724-750 | The driver emits exactly the records of `Run(Init, events)` and reports a lost package exactly when one is still open. |
| FilelistProps.BufferHoldsCharsSinceLastTag | xml-parser.c:592-593 | The buffer holds exactly the characters received since the most recent tag. It is also cleared at 655 and appended at 663. |
| FilelistProps.PackageEndEmitsRecord | xml-parser.c:614-626 | Only `</package>` in the package state emits, and it emits the open record and clears the record and file cursor. |
| FilelistProps.PackageOpenTakesIdentity | xml-parser.c:517-545 | `<package>` opens a fresh record whose id, name and arch are the last such attributes. Other tags at top level change nothing. |
| FilelistProps.IdentityFixedInsidePackage | xml-parser.c:548-640 | Until `</package>`, the record's id, name and arch never change and nothing is emitted. |
| FilelistProps.FileCloseAddsOneFile | xml-parser.c:629-639 | `</file>` prepends exactly one file, named by the buffer and typed by the open tag or else "file", and clears the cursor. |
| FilelistProps.OneFile | xml-parser.c:573-639 | One `<file>` element adds exactly the file its attributes and text describe. |
| FilelistProps.FilesInReverseDocumentOrder | xml-parser.c:637 | A run of file elements leaves the files in reverse document order in front of the earlier ones. |
| FilelistProps.OpenWithoutPackageEnd | xml-parser.c:608-626 | Without `</package>` the record stays open and nothing is emitted. |
| FilelistProps.PackageElementEmitsOnce | xml-parser.c:614-626 | A package element produces exactly one callback with the record its body built. |
| FilelistProps.EveryPackageEmittedOnce | xml-parser.c:724-750 | N package elements produce exactly N callbacks. |
| FilelistProps.TruncatedPackageIsLost | xml-parser.c:740-747 | A document cut off inside a package emits only the earlier records and leaves the last one open. |
| Other.ReadEntry | xml-parser.c:828-842 | The `<changelog>` scan allocates an entry carrying the last `author` and `date` values and no text. |
| Other.OnToplevelStart | xml-parser.c:772-800 | Top-level start tags keep the invariant. The identity a new record takes is stated by `OtherProps.PackageOpenTakesIdentity`. |
| Other.OnPackageStart | xml-parser.c:803-843 | Package-state start tags keep the invariant. Their effect is stated by `OtherProps.OneChangelog` and `OtherProps.IdentityFixedInsidePackage`. |
| Other.OnStart | xml-parser.c:846-863 | A start tag clears the buffer, dispatches and keeps the invariant. |
| Other.OnPackageEnd | xml-parser.c:866-900 | Package-state end tags keep the invariant. They require an entry on `</changelog>`, which the handler dereferences. |
| Other.OnEnd | xml-parser.c:903-916 | An end tag dispatches, clears the buffer and keeps the invariant. |
| Other.OnCharacters | xml-parser.c:919-924 | Character data only extends the buffer. |
| Other.Step | xml-parser.c:846-924 | Every accepted event keeps the invariant. |
| Other.Run | xml-parser.c:984-1010 | A whole accepted stream keeps the invariant. |
| Other.RunAppend | xml-parser.c:984-1010 | Running a concatenation is running its parts in turn. |
| Other.OtherParser.constructor | xml-parser.c:991-996 | The fresh context is at top level, empty. |
| Other.OtherParser.ToplevelStart | xml-parser.c:772-800 | The handler leaves the fields as `OnToplevelStart` specifies. |
| Other.OtherParser.PackageStart | xml-parser.c:803-843 | The handler leaves the fields as `OnPackageStart` specifies. |
| Other.OtherParser.StartElement | xml-parser.c:846-863 | The handler leaves the fields as `OnStart` specifies. |
| Other.OtherParser.PackageEnd | xml-parser.c:866-900 | The handler leaves the fields as `OnPackageEnd` specifies, including the reversal of the changelogs before the callback. |
| Other.OtherParser.EndElement | xml-parser.c:903-916 | The handler leaves the fields as `OnEnd` specifies. |
| Other.OtherParser.Characters | xml-parser.c:919-924 | The handler leaves the fields as `OnCharacters` specifies. |
| Other.ParseOther | xml-parser.c:984-1010 | The driver emits exactly the records of `Run(Init, events)` and reports a lost package exactly when one is still open. |
| OtherProps.BufferHoldsCharsSinceLastTag | xml-parser.c:850-851 | The buffer holds exactly the characters received since the most recent tag. It is also cleared at 915 and appended at 923. |
| OtherProps.PackageEndEmitsRecord | xml-parser.c:872-888 | Only `</package>` emits, and it emits the open record with its changelogs reversed. |
| OtherProps.PackageOpenTakesIdentity | xml-parser.c:772-800 | `<package>` opens a fresh record with the last id, name and arch attributes. |
| OtherProps.IdentityFixedInsidePackage | xml-parser.c:803-900 | Until `</package>`, id, name and arch never change and nothing is emitted. |
| OtherProps.ChangelogCloseAddsOneEntry | xml-parser.c:890-898 | `</changelog>` prepends exactly one entry, carrying the open tag's author and date and the buffered text. |
| OtherProps.OneChangelog | xml-parser.c:828-898 | One changelog element adds exactly the entry its attributes and text describe. |
| OtherProps.ChangelogsAccumulateReversed | xml-parser.c:897 | Inside the package the entries accumulate in reverse document order. |
| OtherProps.ChangelogsEmittedInDocumentOrder | xml-parser.c:874-875 | At `</package>` the emitted changelogs are the earlier ones followed by the document's entries in document order. |
| OtherProps.TwoChangelogsInOrder | xml-parser.c:874-897 | Two changelog elements are emitted as [first, second]. |
| OtherProps.OpenWithoutPackageEnd | xml-parser.c:866-888 | Without `</package>` the record stays open and nothing is emitted. |
| OtherProps.PackageElementEmitsOnce | xml-parser.c:872-888 | A package element produces exactly one callback, with its changelogs reversed. |
| OtherProps.EveryPackageEmittedOnce | xml-parser.c:984-1010 | N package elements produce exactly N callbacks. |
| OtherProps.TruncatedPackageIsLost | xml-parser.c:1000-1007 | A document cut off inside a package emits only the earlier records. |
| Debug.NextId | debug.c:39-42 | The next id is 1 for an empty registry and otherwise the head's id + 1, wrapping to 0 after 0xFFFFFFFF. |
| Debug.Without | debug.c:54-61 | Removal changes nothing when no id matches, removes exactly one handler when one matches, and never adds one. |
| Debug.WithoutFirstMatch | debug.c:54-61 | Removal takes out exactly the first matching handler, and the others keep their order. |
| Debug.Calls | debug.c:78-82 | Dispatch makes one call per handler, in list order, with the same message and level and the handler's user data. |
| Debug.Dispatch | debug.c:78-82 | The dispatch loop makes exactly those calls. |
| Debug.DecimalRoundTrip | debug.c:64 | The rendered digits of an id read back as the id. |
| Debug.SignedText | debug.c:64 | `%d` renders an id of 2^31 or more as the negative number id - 2^32. |
| Debug.Registry.constructor | debug.c:26 | The registry starts empty. |
| Debug.Registry.AddHandler | debug.c:28-47 | A null callback returns 0 and changes nothing. Otherwise a handler with `NextId` is placed at the front and its id returned. |
| Debug.Registry.RemoveHandler | debug.c:49-65 | The first matching handler is removed. With no match, the registry is unchanged and every handler receives one warning naming the id. |
| Debug.Registry.Debug | debug.c:67-85 | Every registered handler is called once, newest first, and the registry is unchanged. |
| Debug.IdReusedAfterHeadRemoval | debug.c:39-58 | After the head is removed, the next add gets the removed head's id again. |
| SqliteCache.Ids | sqlitecache.c:168-170 | The ids noted are exactly the ids of the records received. |
| SqliteCache.NewPackages | sqlitecache.c:172-177 | The records written all have ids that are not stored, and each comes from the document. |
| SqliteCache.NewPackagesMembers | sqlitecache.c:172-177 | A record is written exactly when it is in the document and its id is not found among the stored ids. |
| SqliteCache.NewPackagesAppend | sqlitecache.c:251-257 | The stored ids are never modified, so the records written for two runs of records are those of each run. |
| SqliteCache.RepeatedNewIdWrittenTwice | sqlitecache.c:322-328 | A new id that occurs twice in the document is written twice but noted once. |
| SqliteCache.Stale | sqlitecache.c:65 | The stale ids are exactly the stored ids the document did not list. |
| SqliteCache.CachedIds | sqlitecache.c:60-79 | After a log is applied, the cache keeps every stored id that was not deleted and every written id. |
| SqliteCache.UpdateInfo.constructor | sqlitecache.c:26-34 | The bookkeeping starts unprepared, with an empty log. |
| SqliteCache.UpdateInfo.Init | sqlitecache.c:36-58 | Preparation success zeroes both counters, loads the stored ids and empties the noted ids. Preparation failure warns and leaves every field as it was (early return at 44-49). |
| SqliteCache.UpdateInfo.AddPackage | sqlitecache.c:163-178 | The id is noted. The record is written and `add_count` incremented exactly when the id is not stored. The stored ids never change. The same callback is at 241-258 and 312-329. |
| SqliteCache.UpdateInfo.AddAll | sqlitecache.c:198-231 | Feeding the decoder's records in order notes all their ids, writes exactly the new ones in order and counts them. |
| SqliteCache.UpdateInfo.RemoveEntry | sqlitecache.c:60-79 | A stored id the document did not list is deleted by its key and counted whether or not the delete succeeds, and a failed delete warns. A listed id changes nothing. |
| SqliteCache.UpdateInfo.RemoveOldEntries | sqlitecache.c:81-85 | Exactly the stale stored ids are deleted, each with its key, and `del_count` grows by their number. Exactly the failed deletes warn, one warning each. |
| SqliteCache.Sync | sqlitecache.c:214-229 | A synchronisation counts the new records and the stale ids, logs the writes then the deletes, warns once per failed delete, and leaves the cache holding exactly the document's ids. |
| SqliteCache.CacheHoldsDocumentIds | sqlitecache.c:163-178 | After any log shaped like a synchronisation, the cache holds exactly the ids of the document, neither more nor fewer. |
| SqliteCache.UpdatePrimary | sqlitecache.c:191-231 | A cache that cannot be opened gives no file name. A cache with the current checksum returns the name with no writes (198-209). Otherwise the primary records are synchronised. |
| SqliteCache.UpdateFilelist | sqlitecache.c:260-302 | Same as above, for the filelists decoder and tables (short-circuit at 267-278). |
| SqliteCache.UpdateOther | sqlitecache.c:331-373 | Same as above, for the other decoder and tables (short-circuit at 338-349). |

## Left out

- The XML tokenizer (libxml2) and the SAX handler tables (`xml-parser.c:442-467`, `696-721` and `956-981`). A document is given as the event sequence the tokenizer would deliver, and file I/O failures of the drivers are not modelled.
- The null-callback guard (`if (ctx->callback)`). Every caller passes a callback, so emission always records the record.
- `g_string_chunk` storage, `package_free`, `g_slist` allocation and leaked cursors. Records, files and entries are values, and freeing is not modelled.
- `g_slist_reverse` is modelled by the function `Reverse`, not as a loop: the loop is in glib, not in this source.
- Primary.OnFormatStart: `FileCursor` models the cursor left by a `<file>` with a `type`. The earlier allocation that such a tag overwrites is leaked in the source, and the model does not capture the leak.
- The printf-style formatting of `debug`. Messages arrive formatted, except for the id that `debug_remove_handler` renders, which is modelled.
- Debug.Registry.RemoveHandler: the callbacks of `debug` are not run. Each invocation is recorded in `log`, so a callback that itself adds or removes handlers is not modelled.
- All SQLite calls (`db.h` is not part of this model): opening, table creation, prepared statements, BEGIN/COMMIT and the checksum bookkeeping. Whether opening succeeds, whether the checksum is current, the stored ids and which deletes fail are parameters. Writes and deletes are entries of a log.
- SqliteCache.Sync: takes the removal statement as prepared. When preparation fails, `update_info_init` returns early (modelled by `UpdateInfo.Init`), and the update functions then go on with uninitialised tables and counters, which the model does not follow.
- SqliteCache.UpdatePrimary, SqliteCache.UpdateFilelist, SqliteCache.UpdateOther, SqliteCache.UpdateInfo.AddPackage: every emitted record must carry a pkgId (`HasIds`). The source hashes a NULL id into `all_packages` and crashes (`sqlitecache.c:168-170`, `247-249`, `318-320`), so a primary package without a non-empty `<checksum>`, or a filelists or other `<package>` without `pkgid`, is outside the model.
- SqliteCache.UpdateInfo.RemoveOldEntries: the order in which the hash table visits the stored ids is left open. The contract states which deletes happen, not their order.
- The `int` counters `add_count` and `del_count` are unbounded integers. Overflow would need more than 2^31 packages.
- The `GTimer` and the elapsed seconds in the closing summary, which are floating point. The summary's counts are the returned `added` and `deleted`.
- The Python bindings (`sqlitecache.c:377-516` and `sqlitecachec.py`), which only wrap the update functions.
- Primary.OnPackageEnd: the source lets any package-scope close other than `</package>` do nothing when the buffer is empty (`xml-parser.c:293-295`), the checksum included. The model follows this; see `PrimaryProps.PackageLeafClose`.
