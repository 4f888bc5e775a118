# projkt templates: catalog cache, selection and writes

A Dafny model of the template-acquisition and selection logic of the two
plugins of `projkt`, a project-scaffolding tool:

- the **gitignore plugin** (`src/plugins/gitignore.rs`) keeps the remote list
  of gitignore templates in a cache file that is trusted for one week. `get`
  decides whether the cache has expired, refreshes it from the remote
  endpoint or reads it, and parses the JSON object into `(name, contents)`
  items. `exec` then picks templates, either by exact name (failing with a
  message that lists every available name) or through the interactive
  picker. `write` concatenates the picked contents into a single buffer for
  `dest/.gitignore`;
- the **license plugin** (`src/plugins/license.rs`) lists the ids of the
  compiled-in license table, resolves requested ids (or a pick) to
  `(id, text)` pairs, and writes each pair to its own `LICENSE-<id>` file.
  The writing stops at the first error. Afterwards an advisory about
  placeholders is printed, depending on whether the files changed.

The cache file, the clock and the remote endpoint form the state of a
`Fetcher.Host` object, and `Host.Get` is proved against the specification
function `Fetcher.Fetch`. The write helper `utils::write_or_create` and the
picker `utils::fuzzy` are not part of this model. They are oracles: a
function from a call (and the calls made before it) to the helper's answer,
and a function from the offered items to the chosen ones. Every operation
returns the write calls it made, in order, so the contracts speak about
which files are written, with which flags and bytes, and in what order.
`str::as_bytes` is modelled as UTF-8 encoding, with a round-trip lemma for
single characters.

Modules: `Wrappers` (Option, Result, error kinds), `Text` (UTF-8, `join`),
`Catalog` (items, lookup, the picker type), `Files` (paths, `OpenOptions`, the
write-helper interface), `Fetcher`, `GitIgnore`, `License`.

In three places the intended design of the tool and its code differ. The
model follows the code:

- a failure to save the refreshed catalog to the cache is fatal to `get`
  (`save_to_cache(&response)?`). It is not skipped;
- the license advisory reflects only the LAST write. The `try_fold`
  overwrites `state` on each item and does not combine the answers. So a run
  that creates `LICENSE-A` and then finds `LICENSE-B` unchanged prints no
  advisory (`License.EarlierChangeNotReported`);
- the cache does not become fresh again after a refresh of an existing
  file. `File::create` truncates the file in place and keeps its creation
  time, and `cache_expired` reads that creation time. So once the file is a
  week old, every later `get` calls the remote endpoint again
  (`Fetcher.RefreshKeepsCreationTime`). This follows from the model's
  reading of `File::create` and `metadata().created()`.

## Model

| member | source | states |
|---|---|---|
| `Fetcher.Parse` | src/plugins/gitignore.rs:30-40 | the result is no longer than the object; each item `(k, c)` is a member `k` whose `contents` is the string `c`; every such member yields its item |
| `Fetcher.ParseAppend` | src/plugins/gitignore.rs:31-39 | parsing works member by member and keeps the object's iteration order: `Parse(a + b) == Parse(a) + Parse(b)` |
| `Fetcher.ParseKeepsNamesDistinct` | src/plugins/gitignore.rs:30-40 | distinct object keys give distinct item names |
| `Fetcher.ParseValue` | src/plugins/gitignore.rs:31-32 | a JSON object is parsed; any other value fails the `expect` with its message |
| `Fetcher.Expired` | src/plugins/gitignore.rs:56-72 | a missing file is expired whatever the clock says; an unreadable creation time is an error; a creation time after `now` is a clock error; otherwise expired iff `now - created >= 604800` seconds |
| `Fetcher.WeekBoundary` | src/plugins/gitignore.rs:11-68 | exactly one week old is expired; one second or one nanosecond younger is fresh |
| `Fetcher.FreshCacheSkipsRemote` | src/plugins/gitignore.rs:92-96 | on a fresh cache `get` only reads the cache, never calls the remote endpoint, leaves the file unchanged and returns the parse of the cached value |
| `Fetcher.ExpiredCacheRefreshes` | src/plugins/gitignore.rs:88-91 | on an expired cache `get` calls the remote endpoint, then saves, then parses the remote value; a remote error stops it before saving, and a save error is returned as the result of `get` |
| `Fetcher.ResultMatchesCache` | src/plugins/gitignore.rs:87-97 | a catalog that `get` returns is the parse of what the cache file holds afterwards |
| `Fetcher.RefreshKeepsCreationTime` | src/plugins/gitignore.rs:74-85 | a refresh that creates the file leaves a fresh cache; one that rewrites an expired file leaves it expired |
| `Fetcher.Host.FetchFromRemote` | src/plugins/gitignore.rs:42-48 | returns the remote answer and records one remote call |
| `Fetcher.Host.FetchFromCache` | src/plugins/gitignore.rs:50-54 | a missing file is an I/O error; otherwise returns the file's value or its read error |
| `Fetcher.Host.SaveToCache` | src/plugins/gitignore.rs:74-85 | on success the cache file holds the value, with its creation time kept (or set to now for a new file); on failure the error is returned |
| `Fetcher.Host.Get` | src/plugins/gitignore.rs:87-97 | result, cache file and effects are those of `Fetcher.Fetch` on the old state |
| `Text.Utf8` | src/plugins/gitignore.rs:116 | one to four bytes; one byte exactly for ASCII, equal to the code point; otherwise a lead byte followed by continuation bytes |
| `Text.Utf8RoundTrip` | src/plugins/gitignore.rs:116 | decoding the bytes of a character gives the character back |
| `Text.Encode` | src/plugins/gitignore.rs:116 | a string of n characters has between n and 4n bytes |
| `Text.EncodeAppend` | src/plugins/gitignore.rs:113-120 | the bytes of `s + t` are the bytes of `s` followed by those of `t` |
| `Text.JoinAt` | src/plugins/gitignore.rs:157-161 | part i of a joined string stands at its offset |
| `Text.JoinSeparatorAt` | src/plugins/gitignore.rs:157-161 | consecutive parts are separated by exactly the separator |
| `Text.JoinLength` | src/plugins/gitignore.rs:157-161 | the joined string ends where its last part ends |
| `Catalog.FirstNamed` | src/plugins/gitignore.rs:150 | finds nothing iff no item has the name; otherwise the index of an item with exactly that name, with no earlier one |
| `Catalog.Names` | src/plugins/gitignore.rs:157-160 | the names of the items, same length, in catalog order |
| `Catalog.Outputs` | src/plugins/gitignore.rs:113-118 | the contents of the items, same length, in order |
| `Catalog.ListedNamesAreFound` | src/plugins/gitignore.rs:150-160 | every listed name is found by the lookup |
| `GitIgnore.BufferIsEncodedConcat` | src/plugins/gitignore.rs:113-120 | the buffer is the UTF-8 encoding of the selected outputs concatenated in selection order |
| `GitIgnore.BufferAppend` | src/plugins/gitignore.rs:113-120 | the buffer of two selections is the first's buffer followed by the second's |
| `GitIgnore.Write` | src/plugins/gitignore.rs:110-134 | exactly one call, for `dest/.gitignore`, with write and create set, truncate = overwrite, append = append, the outputs' bytes in order and `overwrite` forwarded; the helper's error is the result |
| `GitIgnore.NotFoundMessageLists` | src/plugins/gitignore.rs:157-165 | the message holds the requested name, then every catalog name at its position in catalog order, separated by `", "` |
| `GitIgnore.FetchErrorWritesNothing` | src/plugins/gitignore.rs:148 | a failed fetch ends `exec` with its error and no write |
| `GitIgnore.NamedTemplateIsWritten` | src/plugins/gitignore.rs:147-153 | with a name the catalog has, one write of exactly the first such template's contents to `dest/.gitignore` |
| `GitIgnore.UnknownNameListsCatalog` | src/plugins/gitignore.rs:156-166 | with an unknown name, no write and an error carrying the not-found message over all catalog names |
| `GitIgnore.PickedTemplatesAreWritten` | src/plugins/gitignore.rs:170-176 | without a name the whole catalog goes to the picker with multi-select; its error ends `exec` with no write; otherwise exactly its choices are written, in its order |
| `GitIgnore.Exec` | src/plugins/gitignore.rs:145-179 | fetches as `Fetcher.Fetch` says, then writes and returns what `GitIgnore.Outcome` gives for the fetched catalog |
| `License.TableCache.constructor` | src/plugins/license.rs:14-16 | the stored table starts empty and the one-time initialisation has not run |
| `License.TableCache.Get` | src/plugins/license.rs:18-26 | every call, the first and all later ones, returns the compiled-in table |
| `License.Ids` | src/plugins/license.rs:39-44 | the table's ids, same length, in table order |
| `License.ListedIdsAreFound` | src/plugins/license.rs:104-105 | every listed id is found by `exec`'s lookup at an entry with that id |
| `License.Resolve` | src/plugins/license.rs:100-109 | one pair per requested id, in request order, with the text of the first table entry of that id; every id must be in the table |
| `License.Pairs` | src/plugins/license.rs:94-97 | each chosen item as `(name, contents)`, in order |
| `License.Write` | src/plugins/license.rs:46-70 | the calls write item i's text to `LICENSE-<id_i>` in order, with write and create only and `overwrite` forwarded; they stop at the first failing call, whose error is returned; after all succeed the result is Ok and the advisory is printed iff the last write reported a change (none for no items) |
| `License.WroteIsDeterministic` | src/plugins/license.rs:46-70 | the outcome `License.Write` promises is unique: result, calls and advisory are fixed by the helper and the items |
| `License.EarlierChangeNotReported` | src/plugins/license.rs:50-63 | a first write that changes a file followed by a second that does not gives Ok and no advisory |
| `License.Exec` | src/plugins/license.rs:81-115 | with no ids the whole table goes to the picker, whose error ends the run without writes, and the chosen pairs are written; with ids the resolved pairs are written in the order requested |

## Left out

- The HTTP request to the template list (`ureq`) is not modelled: its answer, a JSON value or an error, is the field `Host.remote`.
- `cache_path` and `dirs::cache_dir().unwrap()` are not modelled: there is one cache file, present or not. A missing cache directory would panic; the model does not capture that.
- The file system and the clock are fields of `Host`: the cache file's presence, creation time and contents, and `now` in nanoseconds. `file.exists()` also answers false when the metadata cannot be read; the model treats such a file as missing.
- serde_json is not modelled. A JSON value is an object, as members with their optional string `contents`, or any other value. A saved value is assumed to read back as itself.
- Fetcher.Host.SaveToCache: on failure the cache file is left unchanged in the model. The real `File::create` may have truncated it already, or `to_writer` may have written part of it.
- `utils::write_or_create` is not part of the model. Its policy (create, overwrite, append, leave an existing file alone) is therefore not modelled. Only its answer per call is given, as an oracle.
- `utils::fuzzy` is not part of the model: it is an oracle from the offered items to the chosen ones. The chosen items' `text()` and `output()` are taken as their name and contents.
- A panic (`expect` on a non-object response) is modelled as an `Err(Panic(..))` result that ends the run. The `unwrap` in `License::exec` is a precondition instead, because the command line only admits listed ids.
- The `Once` / `static mut` initialisation of the license table is modelled sequentially by `TableCache`. Concurrent callers are not modelled. The contents of `spdx::text::LICENSE_TEXTS` are a parameter.
- The advisory's text and all other `println!` output are not modelled: the advisory is a boolean.
- `Box::leak` in `GitIgnore::write` only affects memory and does not change the bytes. The `author` and `email` options are never read.
- The `Plugin` trait plumbing and `License::fetch` (`unimplemented!()`) are not modelled.
