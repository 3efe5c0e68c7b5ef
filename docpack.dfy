/**
 * One docpack job record, the partial records accepted by the store's
 * `update`, and the per-record transforms the store applies.
 */
module DocpackRecord {
  import opened Wrappers

  /** The four job states a record can be in. */
  datatype Status = Queued | Processing | Completed | Failed

  /**
   * A docpack job record. Optional properties (`completedAt?`, `errorMessage?`,
   * `s3Key?`, `docpackUrl?`) are `Option`s; `progress` is an unbounded integer.
   */
  datatype Docpack = Docpack(
    id: string,
    repoOwner: string,
    repoName: string,
    branch: string,
    status: Status,
    progress: int,
    createdAt: string,
    completedAt: Option<string>,
    logs: seq<string>,
    jsonlData: seq<string>,
    errorMessage: Option<string>,
    s3Key: Option<string>,
    docpackUrl: Option<string>)

  /**
   * A `Partial<Docpack>`: every key may be absent (`None`). For a property that
   * is optional in the record, a present key may carry `undefined`
   * (`Some(None)`), which the object spread copies like any other value.
   */
  datatype Patch = Patch(
    id: Option<string>,
    repoOwner: Option<string>,
    repoName: Option<string>,
    branch: Option<string>,
    status: Option<Status>,
    progress: Option<int>,
    createdAt: Option<string>,
    completedAt: Option<Option<string>>,
    logs: Option<seq<string>>,
    jsonlData: Option<seq<string>>,
    errorMessage: Option<Option<string>>,
    s3Key: Option<Option<string>>,
    docpackUrl: Option<Option<string>>)

  /** The empty partial record `{}`. */
  const NoChange: Patch :=
    Patch(None, None, None, None, None, None, None, None, None, None, None, None, None)

  /** The value of a key after `{...base, ...over}`: the later object wins where it has the key. */
  function Later<T>(base: Option<T>, over: Option<T>): Option<T> {
    if over.Some? then over else base
  }

  /** A property after a spread: the patch's value where the key is present, the record's own otherwise. */
  predicate Spread<T(==)>(own: T, key: Option<T>, result: T) {
    (key.Some? ==> result == key.value) && (key.None? ==> result == own)
  }

  /**
   * `{ ...d, ...u }`: every key present in `u` replaces the record's value,
   * every absent key keeps it, and an optional property given as `undefined`
   * is cleared.
   */
  function Merge(d: Docpack, u: Patch): (r: Docpack)
    ensures Spread(d.id, u.id, r.id) && Spread(d.repoOwner, u.repoOwner, r.repoOwner)
    ensures Spread(d.repoName, u.repoName, r.repoName) && Spread(d.branch, u.branch, r.branch)
    ensures Spread(d.status, u.status, r.status) && Spread(d.progress, u.progress, r.progress)
    ensures Spread(d.createdAt, u.createdAt, r.createdAt)
    ensures Spread(d.completedAt, u.completedAt, r.completedAt)
    ensures Spread(d.logs, u.logs, r.logs) && Spread(d.jsonlData, u.jsonlData, r.jsonlData)
    ensures Spread(d.errorMessage, u.errorMessage, r.errorMessage)
    ensures Spread(d.s3Key, u.s3Key, r.s3Key) && Spread(d.docpackUrl, u.docpackUrl, r.docpackUrl)
    ensures u.completedAt == Some(None) ==> r.completedAt.None?
    ensures u.errorMessage == Some(None) ==> r.errorMessage.None?
  {
    Docpack(
      u.id.GetOr(d.id),
      u.repoOwner.GetOr(d.repoOwner),
      u.repoName.GetOr(d.repoName),
      u.branch.GetOr(d.branch),
      u.status.GetOr(d.status),
      u.progress.GetOr(d.progress),
      u.createdAt.GetOr(d.createdAt),
      u.completedAt.GetOr(d.completedAt),
      u.logs.GetOr(d.logs),
      u.jsonlData.GetOr(d.jsonlData),
      u.errorMessage.GetOr(d.errorMessage),
      u.s3Key.GetOr(d.s3Key),
      u.docpackUrl.GetOr(d.docpackUrl))
  }

  /** `{ ...u, ...v }` of two partial records. */
  function Overlay(u: Patch, v: Patch): Patch {
    Patch(
      Later(u.id, v.id),
      Later(u.repoOwner, v.repoOwner),
      Later(u.repoName, v.repoName),
      Later(u.branch, v.branch),
      Later(u.status, v.status),
      Later(u.progress, v.progress),
      Later(u.createdAt, v.createdAt),
      Later(u.completedAt, v.completedAt),
      Later(u.logs, v.logs),
      Later(u.jsonlData, v.jsonlData),
      Later(u.errorMessage, v.errorMessage),
      Later(u.s3Key, v.s3Key),
      Later(u.docpackUrl, v.docpackUrl))
  }

  /** The partial record that spells out every property of `e`. */
  function Spelled(e: Docpack): Patch {
    Patch(
      Some(e.id), Some(e.repoOwner), Some(e.repoName), Some(e.branch),
      Some(e.status), Some(e.progress), Some(e.createdAt), Some(e.completedAt),
      Some(e.logs), Some(e.jsonlData), Some(e.errorMessage), Some(e.s3Key),
      Some(e.docpackUrl))
  }

  /**
   * The change the store's `map` callbacks make to a matching record:
   * `update` merges a partial record, `addLog` and `addJsonlData` append one line.
   */
  datatype Edit = MergeWith(patch: Patch) | AppendLog(line: string) | AppendJsonl(data: string)

  function Apply(d: Docpack, e: Edit): (r: Docpack)
    ensures e.MergeWith? ==> r == Merge(d, e.patch)
    ensures e.AppendLog? ==> r.logs == d.logs + [e.line] && r.(logs := d.logs) == d
    ensures e.AppendJsonl? ==> r.jsonlData == d.jsonlData + [e.data] && r.(jsonlData := d.jsonlData) == d
    ensures KeepsId(e) ==> r.id == d.id
    ensures KeepsRepo(e) ==> r.repoOwner == d.repoOwner && r.repoName == d.repoName
  {
    match e
    case MergeWith(u) => Merge(d, u)
    case AppendLog(line) => d.(logs := d.logs + [line])
    case AppendJsonl(data) => d.(jsonlData := d.jsonlData + [data])
  }

  /** An edit that cannot change a record's job id. */
  predicate KeepsId(e: Edit) {
    e.MergeWith? ==> e.patch.id.None?
  }

  /** An edit that cannot change a record's (owner, repo) pair. */
  predicate KeepsRepo(e: Edit) {
    e.MergeWith? ==> e.patch.repoOwner.None? && e.patch.repoName.None?
  }

  // ---------------------------------------------------------------------------
  // Laws of the merge

  /** Merging `{}` changes nothing. */
  lemma MergeNothing(d: Docpack)
    ensures Merge(d, NoChange) == d
  {
  }

  /** Merging a record's own properties back into it changes nothing. */
  lemma MergeOwnFields(d: Docpack)
    ensures Merge(d, Spelled(d)) == d
  {
  }

  /** A partial record that spells out every property replaces the whole record. */
  lemma MergeSpelledReplaces(d: Docpack, e: Docpack)
    ensures Merge(d, Spelled(e)) == e
  {
  }

  /** Merging `u` and then `v` is merging the single spread `{...u, ...v}`. */
  lemma MergeTwice(d: Docpack, u: Patch, v: Patch)
    ensures Merge(Merge(d, u), v) == Merge(d, Overlay(u, v))
  {
  }

  /** Merging the same partial record twice is merging it once. */
  lemma MergeIdempotent(d: Docpack, u: Patch)
    ensures Merge(Merge(d, u), u) == Merge(d, u)
  {
  }

  /** `addLog` is the same as merging `{ logs: [...d.logs, line] }`. */
  lemma AppendLogIsMerge(d: Docpack, line: string)
    ensures Apply(d, AppendLog(line)) == Merge(d, NoChange.(logs := Some(d.logs + [line])))
  {
  }
}
