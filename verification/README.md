# cloudutils_fs: a Dafny model of the cloud file-system layer

cloudutils_fs puts three cloud storage providers behind the pyfs file-system
interface: Google Drive (plus an older, identifier-addressed Google Drive class),
SkyDrive and Dropbox. A factory picks the provider from a URI of the form
`service://root`. This project models the part of that layer that is real logic
rather than SDK plumbing:

- the per-instance metadata cache `cached_files` of the Google Drive, SkyDrive and
  older Google Drive classes. It is modelled as a class with a `map<string, Meta>`
  field; the reply of each SDK call is a parameter of the method;
- path normalisation inside `_cloud_command`, and the `(parent, title)` resolution
  used by `createfile` and `makedir`, including the recursive folder chain;
- the guard chains of `rename`, `remove`, `removedir`, `createfile`, `makedir` and
  `_move`, with "exists" and "is a directory" passed in as oracles;
- `_checkRecursive`, the directory-listing extraction, the `listdirinfo` lookup, the
  complementary `isdir`/`isfile` predicates, and Dropbox's `getinfo`, which strips
  the "contents" key;
- `CloudServiceFactory.get_fs`: the URI split, the credential lookup and the dispatch.

Python values are the `Values.Value` datatype: None, bools, ints, strings, lists and
dicts. `Values.Truthy` is Python's truthiness. A raised exception is the `Err` side of
`Values.Result`, tagged with the exception class. `str.split` and `str.join` are
`Strings.Split` and `Strings.Join`. Joining a split gives the string back for every
non-empty separator; splitting a join gives the pieces back for one-character
separators. The source is
Python 2, so `parts < 3` (a list compared with an int) is always false. The early
return it guards in `_checkRecursive` is therefore never taken.

Modules, one per source concern: `Values`, `Strings`, `Listing` (shared listing
code), `Resolution` (shared path resolution), `GoogleDrive`, `SkyDrive`,
`GoogleDriveBackup`, `Dropbox` and `ServiceFactory`.

## Model

| member | source | states |
|---|---|---|
| Strings.FirstSep | src/ServiceFactory.py:10 | the index found is an occurrence of the separator with none before it; None exactly when the separator occurs nowhere |
| Strings.Split | src/GoogleDriveFS.py:135 | `split` always yields at least one piece, so `parts[0]` never raises |
| Strings.JoinSplit | src/DropboxFS.py:190-194 | joining the pieces of a split with the same separator gives the string back |
| Strings.SplitPiecesFree | src/SkyDriveFS.py:111 | no piece of a split contains the separator |
| Strings.SplitCons | src/SkyDriveFS.py:220 | splitting `a + "/" + b` with no "/" in `a` yields `a` followed by the pieces of `b` |
| Strings.SplitJoin | src/GoogleDriveFS.py:281 | splitting the join of "/"-free pieces gives the pieces back |
| Strings.SplitSnoc | GoogleDriveFS_Backup.py:188-192 | appending "/" and a "/"-free piece adds exactly that piece at the end of the split |
| Strings.ContainsChar | src/GoogleDriveFS.py:135 | a one-character separator occurs exactly when the character does |
| Listing.LoopItems | src/GoogleDriveFS.py:385-386 | iterating a list hands over its elements; an empty string or dict runs the loop zero times; anything else makes `one[key]` raise TypeError |
| Listing.ProjectSpec | GoogleDriveFS_Backup.py:225-231 | `[one[field] for one in items]` succeeds exactly when every entry has the field; it keeps order and length; a failure is the error of the first bad entry |
| Listing.DirList | src/GoogleDriveFS.py:382-388 | the append loop returns [] for falsy metadata or metadata without the list key, AttributeError for a truthy non-dict, and otherwise the field of every listed entry in order (same code in src/SkyDriveFS.py and the older class) |
| Listing.FirstMatchAbsent | src/GoogleDriveFS.py:419-426 | on a well-formed listing with no entry whose field equals `p`, the lookup answers `{}` |
| Listing.FirstMatchLeftmost | src/SkyDriveFS.py:309-316 | on a well-formed listing, the lookup answers the leftmost entry whose field equals `p` |
| Listing.LookupInfo | src/GoogleDriveFS.py:419-426 | the early-returning scan equals the first-match specification: AttributeError for a non-dict reply, `{}` without the list key |
| Resolution.CreateTarget | src/GoogleDriveFS.py:135-146 | the chosen title contains no "/"; a parent other than the root is a single non-empty segment; errors are only IndexError, or PathError when the parent does not exist |
| Resolution.CreateTargetRooted | src/GoogleDriveFS.py:136-138 | "/t..." creates `t` under the root, ignoring anything after a further "/" |
| Resolution.CreateTargetUnderParent | src/GoogleDriveFS.py:139-143 | "p/t" creates `t` under `p` when `p` exists, and raises PathError otherwise |
| Resolution.CreateTargetBare | src/GoogleDriveFS.py:144-146 | a bare title goes under the root |
| Resolution.CreateTargetDeep | src/SkyDriveFS.py:111-122 | "p/a/b" creates a file titled `p` under the root, without checking anything |
| Resolution.CreateTargetEmpty | src/SkyDriveFS.py:111-114 | the empty path raises IndexError at `parts[1]` |
| Resolution.MakeDirPlan | src/GoogleDriveFS.py:281-304 | errors are only PathError or UnsupportedError; a chain happens only when recursive and has at least two "/"-free titles; a single folder has a "/"-free title |
| Resolution.MakeDirRooted | src/GoogleDriveFS.py:298-303 | "t" and "/t" create one folder `t` under the root |
| Resolution.MakeDirUnderParent | src/GoogleDriveFS.py:285-288 | "p/t" creates one folder `t` in `p` when `p` exists, and raises PathError otherwise |
| Resolution.MakeDirNested | src/GoogleDriveFS.py:289-297 | "start/t1/.../tn" with n >= 2: PathError when a non-empty start is missing; UnsupportedError without recursive; otherwise the chain t1..tn starting in `start`, or in the root when `start` is empty |
| Resolution.CreateChain | src/GoogleDriveFS.py:292-295 | the loop issues the titles in order; the first request goes into the starting folder and each later one into the "id" of the previous reply; a reply without a usable "id" stops it with that error |
| Resolution.MakeDir | src/SkyDriveFS.py:220-243 | the requests issued are those of the plan: none on a guard error, one for a single folder, the chain otherwise |
| Resolution.ParentPathSpec | GoogleDriveFS_Backup.py:185-198 | `"/".join(parts[:-1])` of `p/t` is `p`, and "" for a path without "/" |
| Resolution.CheckRecursiveSpec | src/DropboxFS.py:187-200 | for `p/t`, `_checkRecursive` is exists(p) or recursive; the `parts < 3` return never fires |
| GoogleDrive.Normalise | src/GoogleDriveFS.py:488-496 | a missing path is the root; one leading "/" is dropped; what is then empty is the root; an empty path raises IndexError |
| GoogleDrive.NormaliseIdentifier | src/GoogleDriveFS.py:491-496 | an identifier reaches the provider unchanged with or without a leading "/" |
| GoogleDrive.IsFolder | src/GoogleDriveFS.py:348-349 | `_isdir` answers exactly when the info is a dict with "mimeType", and it is true iff that is the folder type |
| GoogleDrive.IsNotFolder | src/GoogleDriveFS.py:363-364 | `_isfile` fails exactly when `_isdir` does, and otherwise is its negation |
| GoogleDrive.GetInfo | src/GoogleDriveFS.py:441-451 | `getinfo` raises PathError unless the metadata was answered and is truthy, and then returns it |
| GoogleDrive.IsDirAt | src/GoogleDriveFS.py:351-361 | "/" is a directory without asking; a failing `getinfo` becomes PathError; otherwise `_isdir` of the metadata |
| GoogleDrive.IsFileAtAsWritten | src/GoogleDriveFS.py:366-372 | as written, `isfile` answers None whenever it does not raise |
| GoogleDrive.IsFileAtAsWrittenFalsy | src/GoogleDriveFS.py:321-334 | the written `isfile` fails exactly when the intended one does; for every regular file, where the intended one is true, it answers None, which `movedir` reads as false |
| GoogleDrive.PlainFileIsFalsy | src/GoogleDriveFS.py:366-372 | a "text/plain" file is a file by the intended `isfile` and None by the written one |
| GoogleDrive.IsFileAt | src/GoogleDriveFS.py:366-372 | intended `isfile`: PathError when `getinfo` fails, else `_isfile` of the metadata |
| GoogleDrive.IsFileAtComplement | src/GoogleDriveFS.py:351-372 | away from "/", `isfile` and `isdir` fail together and answer oppositely otherwise |
| GoogleDrive.Remove | src/GoogleDriveFS.py:244-255 | the root is refused (UnsupportedError) before the directory test (PathError); otherwise the normalised path is deleted |
| GoogleDrive.RemoveDir | src/GoogleDriveFS.py:257-267 | the directory test (PathError) comes before the root refusal; otherwise the normalised path is deleted |
| GoogleDrive.RemoveDirSlashDeletesRoot | src/GoogleDriveFS.py:257-267 | `removedir("/")` passes both guards and deletes the root, since `isdir("/")` is true and `file_delete` normalises "/" to the root |
| GoogleDrive.RootGuardOrder | src/GoogleDriveFS.py:244-267 | for the root as a non-directory, `remove` and `removedir` raise different errors |
| GoogleDrive.MovePatchAsWritten | src/GoogleDriveFS.py:336-346 | as written, PathError comes exactly when both sides are missing, or one exists and the destination is a file; success exactly when one side exists, the destination is a folder and the source is a dict (even `{}`); the patch is the source with "parents" set to `[{"id": dst}]` |
| GoogleDrive.MoveMissingDestination | src/GoogleDriveFS.py:336-343 | any existing source moved into a missing destination raises TypeError, where the intended guard raises PathError |
| GoogleDrive.MoveMissingSource | src/GoogleDriveFS.py:336-345 | a missing source moved into an existing folder raises TypeError at the patch, where the intended guard raises PathError |
| GoogleDrive.MovePatchAgrees | src/GoogleDriveFS.py:336-346 | when both sides exist, the written and the intended patch coincide |
| GoogleDrive.MovePatch | src/GoogleDriveFS.py:336-346 | intended `_move`: PathError unless both sides exist; the patch is the source metadata with "parents" set to exactly `[{"id": dst}]` and every other field kept; it succeeds whenever both exist and the destination is a folder |
| GoogleDrive.GoogleDriveFS.constructor | src/GoogleDriveFS.py:46-50 | the root is the caller's or the about() "rootFolderId"; the cache starts empty |
| GoogleDrive.GoogleDriveFS.Command | src/GoogleDriveFS.py:499-565 | the listing, info, create, delete and copy commands pass the reply through after normalisation and leave the cache alone |
| GoogleDrive.GoogleDriveFS.GetFile | src/GoogleDriveFS.py:508-514 | a hit uses the stored entry with no fetch; a miss fetches and, only when caching, stores under the fetched "id" |
| GoogleDrive.GoogleDriveFS.FileRename | src/GoogleDriveFS.py:567-581 | the cached or fetched metadata is sent with its title replaced; the answer is stored under the normalised path, only when caching |
| GoogleDrive.GoogleDriveFS.UpdateFile | src/GoogleDriveFS.py:582-596 | the cached or fetched metadata is the upload body; the answer is stored under the normalised path, only when caching |
| GoogleDrive.GoogleDriveFS.UpdateFileInfo | src/GoogleDriveFS.py:597-607 | the patch answer is stored under the normalised path, only when caching |
| GoogleDrive.GoogleDriveFS.Rename | src/GoogleDriveFS.py:233-242 | the root is refused; otherwise the body sent is the root's cached entry (or the metadata fetched for `src`) retitled `dst`, and the answer is cached under the root's key, not under `src` |
| GoogleDrive.GoogleDriveFS.Move | src/GoogleDriveFS.py:336-346 | the patch is the written one, MovePatchAsWritten; on success the answer is cached under the source's normalised path |
| GoogleDrive.UncachedSession | src/GoogleDriveFS.py:49-50 | with caching off, a session of get, update, update-info and rename leaves the cache empty |
| SkyDrive.GetInfo | src/SkyDriveFS.py:331-342 | `getinfo` raises PathError unless the path exists, and then returns the info answer |
| SkyDrive.IsDirAt | src/SkyDriveFS.py:246-252 | a failing `getinfo` becomes PathError; otherwise true iff "type" is "folder" |
| SkyDrive.IsFileAt | src/SkyDriveFS.py:254-260 | `isfile` fails exactly when `isdir` does, and otherwise is its negation |
| SkyDrive.Remove | src/SkyDriveFS.py:183-194 | root refusal before the directory test; succeeds exactly for a non-root non-directory, deleting that path |
| SkyDrive.RemoveDir | src/SkyDriveFS.py:196-206 | directory test before the root refusal; succeeds exactly for a non-root directory |
| SkyDrive.Rename | src/SkyDriveFS.py:172-181 | the root is refused; otherwise `info_update(src, {"name": dst})` |
| SkyDrive.SkyDriveFS.constructor | src/SkyDriveFS.py:39-49 | the root defaults to "me/skydrive"; the cache starts empty |
| SkyDrive.SkyDriveFS.Command | src/SkyDriveFS.py:440-445 | `file_move` raises AttributeError; the other pass-through commands answer the reply |
| SkyDrive.SkyDriveFS.GetFile | src/SkyDriveFS.py:391-397 | the raw path is the key; a hit uses the stored entry with no fetch; a miss fetches and, only when caching, stores under the fetched "id" |
| SkyDrive.SkyDriveFS.FileRename | src/SkyDriveFS.py:446-460 | the cached or fetched metadata is sent retitled; the answer is stored under the raw path, only when caching |
| SkyDrive.SkyDriveFS.UpdateFile | src/SkyDriveFS.py:461-475 | on a miss the fetched metadata is the body but is not stored; only the answer is stored under the raw path, only when caching |
| GoogleDriveBackup.CreateFileParent | GoogleDriveFS_Backup.py:100-112 | no parent means the root; a given parent is used when it exists, and PathError otherwise |
| GoogleDriveBackup.Exists | GoogleDriveFS_Backup.py:217-222 | `exists` is true exactly when `isdir` does not fail with PathError, i.e. when `getinfo` did not raise |
| GoogleDriveBackup.IsDirAt | GoogleDriveFS_Backup.py:200-206 | a raising `getinfo` becomes PathError; otherwise the "mimeType" test |
| GoogleDriveBackup.IsFileAt | GoogleDriveFS_Backup.py:208-214 | `isfile` fails exactly when `isdir` does, and otherwise is its negation |
| GoogleDriveBackup.Rename | GoogleDriveFS_Backup.py:159-164 | refused when either side is the root; otherwise the unknown 'file_rename' command answers None |
| GoogleDriveBackup.RemoveTargetAsWritten | GoogleDriveFS_Backup.py:166-171 | as written, removing any non-root identifier deletes the root |
| GoogleDriveBackup.RemoveDeletesRoot | GoogleDriveFS_Backup.py:166-171 | for every non-root path, the written target is the root and differs from the intended one |
| GoogleDriveBackup.RemoveTarget | GoogleDriveFS_Backup.py:166-171 | intended `remove`: the root is refused, and otherwise the path itself, never the root, is deleted |
| GoogleDriveBackup.RemoveDir | GoogleDriveFS_Backup.py:173-179 | as written: the directory test, then the root refusal, then `remove`, which deletes the root; success exactly for a non-root directory |
| GoogleDriveBackup.RemoveDirDeletesRoot | GoogleDriveFS_Backup.py:173-179 | for every non-root directory, `removedir` as written deletes the root, unlike the intended one |
| GoogleDriveBackup.RemoveDirIntended | GoogleDriveFS_Backup.py:173-179 | intended `removedir`: the same guards, then the directory itself, never the root, is deleted |
| GoogleDriveBackup.GoogleDriveBackupFS.constructor | GoogleDriveFS_Backup.py:45-56 | the root is the caller's or the about() "rootFolderId"; the cache starts empty |
| GoogleDriveBackup.GoogleDriveBackupFS.Command | GoogleDriveFS_Backup.py:322-394 | `file_move` raises AttributeError, an unknown command answers None, the rest answer the reply |
| GoogleDriveBackup.GoogleDriveBackupFS.GetFile | GoogleDriveFS_Backup.py:330-335 | a hit uses the stored entry with no fetch; a miss fetches and always stores under the fetched "id" |
| GoogleDriveBackup.GoogleDriveBackupFS.UpdateFile | GoogleDriveFS_Backup.py:384-394 | the body is the cached entry or None, with no fetch; the answer is always stored under `file_id`; the command answers None |
| GoogleDriveBackup.UpdateThenGet | GoogleDriveFS_Backup.py:322-394 | after an update, a read of the same identifier hits the updated metadata without fetching |
| Dropbox.CreateFileGuard | src/DropboxFS.py:84-102 | in order: root is PathError, existing without wipe is PathError, an existing directory is UnsupportedError; succeeds exactly otherwise, uploading to the path |
| Dropbox.MakeDirGuard | src/DropboxFS.py:171-185 | succeeds exactly when the path is not the root, `_checkRecursive` holds, and recreate is allowed or the path is missing; every refusal is UnsupportedError |
| Dropbox.MakeDirNeedsParent | src/DropboxFS.py:175-200 | a non-recursive `makedir` of `p/t` succeeds exactly when `p` exists and `p/t` may be created |
| Dropbox.GetInfo | src/DropboxFS.py:282-289 | the metadata keeps every key but "contents", with unchanged values; a non-dict raises AttributeError |
| Dropbox.IsDir | src/DropboxFS.py:202-208 | a failing `getinfo` becomes PathError; otherwise the raw "is_dir" value |
| Dropbox.IsFile | src/DropboxFS.py:210-216 | `isfile` fails exactly when `isdir` does, and otherwise is the Boolean negation of its truthiness |
| Dropbox.Rename | src/DropboxFS.py:149-154 | refused when either side is the root; otherwise moves `src` to `dst` |
| Dropbox.Remove | src/DropboxFS.py:156-161 | refuses the root; otherwise deletes the path |
| Dropbox.RemoveDir | src/DropboxFS.py:163-169 | not a directory is PathError, then the root refusal; succeeds exactly for a non-root directory |
| Dropbox.Command | src/DropboxFS.py:324-365 | the path defaults to "/"; an unknown command answers None |
| Dropbox.DirListing | src/DropboxFS.py:241-247 | the "path" of every "contents" entry, in order, or [] |
| Dropbox.LookupPath | src/DropboxFS.py:259-266 | the first "contents" entry whose "path" is the argument, else `{}` |
| ServiceFactory.GetOrEmpty | src/ServiceFactory.py:12-13 | `.get(key, {})` answers the value or `{}`; on a non-dict it raises AttributeError |
| ServiceFactory.Credentials | src/ServiceFactory.py:12-13 | credentials are `user["cloudutils_settings"][service]`, defaulting to `{}` at each level |
| ServiceFactory.Dispatch | src/ServiceFactory.py:15-23 | only "dropbox" receives the root; "google_drive" and "sky_drive" get None; any other name yields None; the credentials are looked up first |
| ServiceFactory.GetFs | src/ServiceFactory.py:9-23 | IndexError exactly when the URI has no "://" |
| ServiceFactory.SplitAfterFree | src/ServiceFactory.py:10-11 | the first "://" after a "://"-free prefix ends the first piece |
| ServiceFactory.FirstPiece | src/ServiceFactory.py:11 | the root is the text between the first and the second "://" |
| ServiceFactory.GetFsParses | src/ServiceFactory.py:10-11 | "service://root" plus any "://..." tail is dispatched on `service` with `root`; the tail is dropped |
| ServiceFactory.UnknownService | src/ServiceFactory.py:9-23 | for every "://"-free service name other than the three known ones, `get_fs` yields None exactly when the credentials look-up does not raise |

## Left out

- All SDK and HTTP calls are left out, including the Drive service, the Dropbox
  client and the SkyDrive API. Their replies are parameters, and a call that raised
  is an `Err` or None.
- OAuth and credential setup are left out: environment variables, token-expiry
  parsing, and the Dropbox OAuth flow in `_build_dropbox_fs`. `get_fs` returns
  which class it builds and with which arguments.
- File contents are left out: `open`, `setcontents`, `_update`/`_upload`, content
  download and upload, and the MIME-type guess.
- Locking and the pyfs base-class machinery (`_listdir_helper`, `listdir` options)
  are left out. Nothing in the code coordinates concurrency.
- `copy`, `copydir`, `getpathurl` and `about` are not modelled. They wrap SDK calls;
  the Google Drive `copy`/`_copy` first check that the source exists and the
  destination is a folder, the same `exists`/`isdir` tests modelled above. The older class's `listdir`/`listdirinfo` call a `cloud_command`
  method it does not define; its `makedir` issues one request under the root. Neither
  is modelled beyond the commands above.
- Values.IdOf: a cache key is a string. A fetched "id" that is not a string is
  modelled as TypeError, where Python would use it as a key.
- Listing.LoopItems: iterating a non-empty string or dict hands over strings. A body
  that indexes them by a string key raises TypeError, and the model merges the two
  steps.
- GoogleDrive.GoogleDriveFS.FileRename: when the cached entry is the one updated,
  Python retitles that dict in place before the update call. The model only covers
  the case where the update call answers, after which the entry is replaced anyway.
  The same holds for the SkyDrive class.
- Resolution.MakeDir: the SkyDrive variant returns the provider's reply for a single
  folder, and the Google Drive variant returns None. The model returns the requests
  issued, not the reply.

## Findings

| source | as written | input that shows it | evidently intended | confidence | as-written member | corrected member |
|---|---|---|---|---|---|---|
| src/GoogleDriveFS.py:336-346 | the existence guard of `_move` is `not (src_info or dst_info)` | an existing file moved to a missing destination: `_isfile(False)` raises TypeError | PathError unless both source and destination exist ("Source or destination don't exist") | high, not executed | GoogleDrive.MoveMissingDestination | GoogleDrive.MovePatch |
| src/GoogleDriveFS.py:366-372 | `isfile` computes `self._isfile(info)` without returning it, so it answers None | any regular file: `movedir` never refuses a file source | `return self._isfile(info)`, the complement of `isdir` | high, not executed | GoogleDrive.IsFileAtAsWrittenFalsy | GoogleDrive.IsFileAtComplement |
| GoogleDriveFS_Backup.py:166-171 | `remove` calls `_cloud_command('file_delete', path=path)`, but `_cloud_command` reads `file_id`, which defaults to the root | `remove("abc")` with root "r" deletes "r" | delete the given identifier | high, not executed | GoogleDriveBackup.RemoveDeletesRoot | GoogleDriveBackup.RemoveTarget |
| GoogleDriveFS_Backup.py:173-179 | `removedir` ends with `self.remove(path, False)`, so it inherits the `remove` defect | `removedir("abc")` on a directory "abc" with root "r" deletes "r" | delete the given directory | high, not executed | GoogleDriveBackup.RemoveDirDeletesRoot | GoogleDriveBackup.RemoveDirIntended |
