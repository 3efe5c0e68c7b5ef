# Docpack job-record store

A model of the client-side store that tracks docpack generation jobs in the
doctown website (`src/lib/stores/docpacks.ts`). The store holds one piece of
state, an ordered list of `Docpack` records. Each record is one job: its job
id, the repository it documents (owner, name, branch), its status and
progress, its timestamps, its log lines and its JSONL lines, and optional
error and download locations. The operations are:

- `add`: appends a record unless some record already has the same (owner, repo) pair.
- `update`: spreads a partial record over every record with a given job id.
- `addLog` / `addJsonlData`: append one line to the matching records.
- `remove`: filters out a job id.
- `clear`: empties the list.
- `hasDocpack`, `getById`, `getByRepo`: read-only lookups. They are `some` and `find` over the list.

Layout:

- `wrappers.dfy`: `Option`.
- `docpack.dfy` (module `DocpackRecord`): the record, the four-valued `Status`, `Patch` (the `Partial<Docpack>`), the spread `Merge`, the per-record `Edit`s, and the laws of the merge.
- `docpack_list.dfy` (module `DocpackList`): the list transforms (`Added`, `Edited`, `Removed`) and the queries (`Any`, `FirstIndex`, `Find`) as functions over `seq<Docpack>`.
- `docpack_laws.dfy` (module `DocpackLaws`): lemmas about how the transforms and the lookups interact.
- `docpack_store.dfy` (module `DocpackStore`): the store as a class. It has one `seq<Docpack>` field. Each method's postcondition gives the new list as one of the functions above.

In a `Patch`, every key may be absent (`None`). A record property that is optional (`completedAt?`, `errorMessage?`, `s3Key?`, `docpackUrl?`) takes an `Option<Option<_>>` in the patch. `Some(None)` is a key present with the value `undefined`. The object spread copies that value, so it clears the property.

The JavaScript callbacks passed to `map`, `filter`, `some` and `find` are modelled by two datatypes. `Selector` (`ById`, `ByRepo`) is the predicate. `Edit` (`MergeWith`, `AppendLog`, `AppendJsonl`) is the per-record change.

## Model

| member | source | states |
|---|---|---|
| `DocpackRecord.Merge` | src/lib/stores/docpacks.ts:74 | the spread `{ ...d, ...updates }`: each key present in the patch replaces the record's value, each absent key keeps it, and an optional property given as `undefined` is cleared |
| `DocpackRecord.Apply` | src/lib/stores/docpacks.ts:74-92 | the `map` callbacks: `MergeWith` merges the patch; `AppendLog` appends one line to `logs` and changes nothing else; `AppendJsonl` appends one line to `jsonlData` and changes nothing else; edits that do not set `id` or the repository keep them |
| `DocpackList.Matches` | src/lib/stores/docpacks.ts:57-122 | the `some`/`find` predicates: `ById` compares the job id, `ByRepo` compares owner and repository name |
| `DocpackList.Any` | src/lib/stores/docpacks.ts:105-110 | `hasDocpack` / `some` is true exactly when some record in the list has the owner and repo name |
| `DocpackList.FirstIndex` | src/lib/stores/docpacks.ts:113-124 | the position where `find` stops: no earlier record matches, and the record there matches (or the end of the list when none does) |
| `DocpackList.Find` | src/lib/stores/docpacks.ts:113-124 | `getById` / `getByRepo` give the first matching record in list order, and "none" exactly when no record matches |
| `DocpackList.Added` | src/lib/stores/docpacks.ts:54-68 | `add` keeps every earlier record at its position and appends at most one record, which is the new one; afterwards the repository has a record |
| `DocpackList.Edited` | src/lib/stores/docpacks.ts:71-95 | the `map` of `update`/`addLog`/`addJsonlData` keeps the length and order; records with the job id are edited, all others are untouched |
| `DocpackList.Removed` | src/lib/stores/docpacks.ts:98-102 | after `remove` no record has the job id; a record survives exactly when it was present with a different id |
| `DocpackRecord.MergeNothing` | src/lib/stores/docpacks.ts:74 | spreading `{}` over a record leaves it unchanged |
| `DocpackRecord.MergeOwnFields` | src/lib/stores/docpacks.ts:74 | spreading a record's own properties back over it leaves it unchanged |
| `DocpackRecord.MergeSpelledReplaces` | src/lib/stores/docpacks.ts:74 | a partial record giving every property replaces the record entirely |
| `DocpackRecord.MergeTwice` | src/lib/stores/docpacks.ts:74 | spreading `u` then `v` equals spreading `{...u, ...v}`: a present key overwrites, an absent key keeps the earlier value |
| `DocpackRecord.MergeIdempotent` | src/lib/stores/docpacks.ts:74 | spreading the same partial record twice equals spreading it once |
| `DocpackRecord.AppendLogIsMerge` | src/lib/stores/docpacks.ts:83 | `addLog`'s change to a record is the update `{ logs: [...d.logs, log] }` |
| `DocpackLaws.AddExistingUnchanged` | src/lib/stores/docpacks.ts:57-66 | `add` of a record whose (owner, repo) is already stored leaves the list exactly as it was |
| `DocpackLaws.AddNewAppends` | src/lib/stores/docpacks.ts:61-64 | `add` of a record with a new (owner, repo) appends exactly that record at the end |
| `DocpackLaws.AddTwiceStoresOnce` | src/lib/stores/docpacks.ts:54-68 | calling `add` twice with the same record has the effect of calling it once |
| `DocpackLaws.AddKeepsReposUnique` | src/lib/stores/docpacks.ts:54-68 | if no two records shared an (owner, repo) pair before `add`, none do after |
| `DocpackLaws.AddKeepsFoundLookups` | src/lib/stores/docpacks.ts:54-68 | any lookup that found a record before `add` finds the same record after |
| `DocpackLaws.AddNewThenGetByRepo` | src/lib/stores/docpacks.ts:61-64 | after adding a record for a new repository, `getByRepo` of that repository returns it |
| `DocpackLaws.UpdateNothingIsIdentity` | src/lib/stores/docpacks.ts:71-77 | `update(jobId, {})` leaves the list unchanged |
| `DocpackLaws.EditAbsentIsIdentity` | src/lib/stores/docpacks.ts:71-95 | an `update`, `addLog` or `addJsonlData` for a job id no record has leaves the list unchanged |
| `DocpackLaws.UpdateTwiceIsOverlay` | src/lib/stores/docpacks.ts:71-77 | two updates of one job equal one update with the spread of both patches, provided the first does not change the job id |
| `DocpackLaws.AddLogAppends` | src/lib/stores/docpacks.ts:80-86 | `addLog` gives each matching record its old logs plus the line at the end, so the old logs are a prefix. Nothing else in the record changes. Other records and the length are unchanged |
| `DocpackLaws.AddJsonlAppends` | src/lib/stores/docpacks.ts:89-95 | `addJsonlData` appends to `jsonlData` of matching records only. `logs` and all other properties are unchanged |
| `DocpackLaws.EditThenGetById` | src/lib/stores/docpacks.ts:71-95 | after an edit that keeps ids, `getById` of the job returns the record it returned before, now edited |
| `DocpackLaws.EditKeepsOtherLookups` | src/lib/stores/docpacks.ts:71-95 | an edit that keeps ids does not change `getById` for any other job id |
| `DocpackLaws.EditKeepsReposUnique` | src/lib/stores/docpacks.ts:71-95 | edits that do not set `repoOwner`/`repoName` keep (owner, repo) pairs unique |
| `DocpackLaws.RemoveAbsentIsIdentity` | src/lib/stores/docpacks.ts:98-102 | removing a job id that no record has leaves the list unchanged |
| `DocpackLaws.RemoveTwiceIsOnce` | src/lib/stores/docpacks.ts:98-102 | calling `remove` a second time with the same id changes nothing |
| `DocpackLaws.RemovedIsSubsequence` | src/lib/stores/docpacks.ts:98-102 | the surviving records keep their original relative order |
| `DocpackLaws.RemoveDistributes` | src/lib/stores/docpacks.ts:100 | filtering a concatenation equals filtering each part and concatenating the results |
| `DocpackLaws.RemoveThenGetByIdNone` | src/lib/stores/docpacks.ts:98-116 | after `remove(jobId)`, `getById(jobId)` finds nothing |
| `DocpackLaws.RemoveKeepsOtherLookups` | src/lib/stores/docpacks.ts:98-116 | `remove` does not change `getById` for any other job id |
| `DocpackLaws.RemoveKeepsReposUnique` | src/lib/stores/docpacks.ts:98-102 | removing records keeps (owner, repo) pairs unique |
| `DocpackLaws.FirstIndexDependsOnMatchesOnly` | src/lib/stores/docpacks.ts:113-124 | where `find` stops depends only on which positions match: two lists that match at the same positions give the same answer index |
| `DocpackLaws.GetByRepoDefinedIffHas` | src/lib/stores/docpacks.ts:105-124 | `getByRepo(o, r)` returns a record exactly when `hasDocpack(o, r)` is true |
| `DocpackLaws.GetByRepoUnique` | src/lib/stores/docpacks.ts:118-124 | while (owner, repo) pairs are unique, `getByRepo` of a stored record's pair returns that record |
| `DocpackStore.Store.constructor` | src/lib/stores/docpacks.ts:25-41 | the store starts with the saved list if one parses; a missing key, an unparseable value or no browser gives the empty list |
| `DocpackStore.Store.Add` | src/lib/stores/docpacks.ts:54-68 | the new list is `Added` of the old one |
| `DocpackStore.Store.Update` | src/lib/stores/docpacks.ts:71-77 | the new list is the old one with the patch merged into each record that has the job id |
| `DocpackStore.Store.AddLog` | src/lib/stores/docpacks.ts:80-86 | the new list is the old one with the line appended to the logs of each record that has the job id |
| `DocpackStore.Store.AddJsonlData` | src/lib/stores/docpacks.ts:89-95 | the new list is the old one with the line appended to the `jsonlData` of each record that has the job id |
| `DocpackStore.Store.Remove` | src/lib/stores/docpacks.ts:98-102 | the new list is the old one without the job id's records |
| `DocpackStore.Store.HasDocpack` | src/lib/stores/docpacks.ts:105-110 | true exactly when a stored record has the owner and repo name |
| `DocpackStore.Store.GetById` | src/lib/stores/docpacks.ts:112-116 | returns the first stored record with the job id, as `Find` specifies |
| `DocpackStore.Store.GetByRepo` | src/lib/stores/docpacks.ts:118-124 | returns the first stored record of the repository, as `Find` specifies |
| `DocpackStore.Store.Clear` | src/lib/stores/docpacks.ts:126-129 | the list is empty afterwards |
| `DocpackStore.AddTwiceKeepsOne` | src/lib/stores/docpacks.ts:54-68 | through the store, two `add`s of one record keep pairs unique, grow the list by at most one, and leave the repository findable |

## Where the code and the design description differ

The design description of this system gives the store rules that
`docpacks.ts` does not have. The model follows the code:

- It describes a terminal status (`completed`/`failed`) as sticky, so later merges could not overwrite it. The code's `update` spreads the partial record unconditionally (line 74). A later update can move a completed job back to `processing`.
- It describes the store as folding relay events (status, log, data, complete, error) into records. The code has no fold. Callers call `update`, `addLog` and `addJsonlData` directly.
- It describes `create` as returning the existing record when the repository already has one. `add` returns nothing. It leaves the list unchanged.
- It calls the job id a primary key. The code never checks ids for uniqueness, so `update`, `addLog`, `addJsonlData` and `remove` act on every record with the id. `getById` returns the first such record. An `update` may also change a record's `id`, `repoOwner` or `repoName`.

## Left out

- Write-through persistence (`subscribe` writing `localStorage`, lines 44-48): browser I/O. Every mutation in the model is a single assignment of the new list, so a write-through would store exactly that list.
- Reading the saved list (lines 25-37): `localStorage.getItem` and `JSON.parse` are foreign code. They become the `StorageRead` argument of the constructor. `JSON.parse` does not check that the parsed value has the shape of a store, and the model does not capture that.
- The JSON round trip of the saved list: no serializer is modelled.
- Svelte `writable`/`get` reactivity, subscribers and the `browser` flag (lines 1-2, 41): framework plumbing. The store is a plain object, and `get(docpackStore)` reads its field.
- A `Partial<Docpack>` that sets a required property (such as `status`) explicitly to `undefined`: the model's `Patch` gives required properties only "absent" or a value.
- The polling/streaming relay (`src/routes/api/docpack/stream/[jobId]/+server.ts`), the job-submission endpoint, authentication, the repository listing and the hooks: network I/O, timers and cookies outside the store.
- `progress: number` becomes an unbounded integer, so fractional and NaN values are not represented. The store only copies the value and never computes with it. The `console.error` logged on a parse failure (line 32) is dropped as I/O.
