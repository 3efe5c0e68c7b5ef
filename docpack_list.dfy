/**
 * The store's list transforms and queries as functions over the ordered list
 * of records: the callbacks handed to `update(...)` (`map`, `filter`, append)
 * and the `some`/`find` lookups.
 */
module DocpackList {
  import opened Wrappers
  import opened DocpackRecord

  /** Which records a lookup or an update selects. */
  datatype Selector = ById(id: string) | ByRepo(owner: string, repo: string)

  /** The callback of `some`/`find`: `ById` compares the job id, `ByRepo` owner and repository name. */
  predicate Matches(d: Docpack, q: Selector): (b: bool)
    ensures q.ById? ==> (b <==> d.id == q.id)
    ensures q.ByRepo? ==> (b <==> d.repoOwner == q.owner && d.repoName == q.repo)
  {
    match q
    case ById(id) => d.id == id
    case ByRepo(owner, repo) => d.repoOwner == owner && d.repoName == repo
  }

  /** `docpacks.some(...)`: whether any record matches. */
  function Any(s: seq<Docpack>, q: Selector): (b: bool)
    ensures b <==> exists i :: 0 <= i < |s| && Matches(s[i], q)
  {
    if s == [] then false
    else if Matches(s[0], q) then true
    else
      var b := Any(s[1..], q);
      assert b ==> exists i :: 1 <= i < |s| && s[i] == s[1..][i - 1] && Matches(s[i], q);
      b
  }

  /** The position `find` stops at: the first match, or `|s|` when none matches. */
  function FirstIndex(s: seq<Docpack>, q: Selector): (k: nat)
    ensures k <= |s|
    ensures forall j :: 0 <= j < k ==> !Matches(s[j], q)
    ensures k < |s| ==> Matches(s[k], q)
  {
    if s == [] || Matches(s[0], q) then 0
    else 1 + FirstIndex(s[1..], q)
  }

  /**
   * `docpacks.find(...)`: the first record in list order that matches, and
   * `None` exactly when no record matches.
   */
  function Find(s: seq<Docpack>, q: Selector): (r: Option<Docpack>)
    ensures r.None? <==> forall i :: 0 <= i < |s| ==> !Matches(s[i], q)
    ensures r.Some? ==>
      exists k :: 0 <= k < |s| && s[k] == r.value && Matches(s[k], q) &&
        forall j :: 0 <= j < k ==> !Matches(s[j], q)
  {
    var k := FirstIndex(s, q);
    if k < |s| then Some(s[k]) else None
  }

  /**
   * The list after `add(d)`: `d` is appended unless some record already has
   * its (owner, repo) pair. Earlier records keep their positions, and the
   * pair is present afterwards.
   */
  function Added(s: seq<Docpack>, d: Docpack): (r: seq<Docpack>)
    ensures |s| <= |r| <= |s| + 1 && r[..|s|] == s
    ensures |r| == |s| + 1 ==> r[|s|] == d
    ensures Any(r, ByRepo(d.repoOwner, d.repoName))
  {
    if Any(s, ByRepo(d.repoOwner, d.repoName)) then s
    else
      assert Matches((s + [d])[|s|], ByRepo(d.repoOwner, d.repoName));
      s + [d]
  }

  /**
   * `docpacks.map(d => d.id === jobId ? <edited d> : d)`: the same length, each
   * record with the job id edited in place, every other record untouched.
   */
  function Edited(s: seq<Docpack>, jobId: string, e: Edit): (r: seq<Docpack>)
    ensures |r| == |s|
    ensures forall i :: 0 <= i < |s| ==>
      r[i] == if s[i].id == jobId then Apply(s[i], e) else s[i]
  {
    if s == [] then []
    else [if s[0].id == jobId then Apply(s[0], e) else s[0]] + Edited(s[1..], jobId, e)
  }

  /**
   * `docpacks.filter(d => d.id !== jobId)`: no record with the job id is left,
   * and a record is kept exactly when it is in the list with another id.
   */
  function Removed(s: seq<Docpack>, jobId: string): (r: seq<Docpack>)
    ensures |r| <= |s|
    ensures forall i :: 0 <= i < |r| ==> r[i].id != jobId
    ensures forall x :: x in r <==> x in s && x.id != jobId
  {
    if s == [] then []
    else if s[0].id == jobId then Removed(s[1..], jobId)
    else [s[0]] + Removed(s[1..], jobId)
  }

  /** No two records share an (owner, repo) pair. */
  predicate UniqueRepos(s: seq<Docpack>) {
    forall i, j :: 0 <= i < j < |s| ==>
      !(s[i].repoOwner == s[j].repoOwner && s[i].repoName == s[j].repoName)
  }

  /** `a` is `b` with some records dropped and the rest in their original order. */
  ghost predicate Subsequence(a: seq<Docpack>, b: seq<Docpack>)
    decreases |b|
  {
    if a == [] then true
    else if b == [] then false
    else (a[0] == b[0] && Subsequence(a[1..], b[1..])) || Subsequence(a, b[1..])
  }
}
