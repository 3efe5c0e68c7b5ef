/**
 * What the store's transforms promise about the record list, and how they
 * interact with the lookups.
 */
module DocpackLaws {
  import opened Wrappers
  import opened DocpackRecord
  import opened DocpackList

  // ---------------------------------------------------------------------------
  // add

  /** Adding a record whose (owner, repo) pair is already stored changes nothing. */
  lemma AddExistingUnchanged(s: seq<Docpack>, d: Docpack)
    requires Any(s, ByRepo(d.repoOwner, d.repoName))
    ensures Added(s, d) == s
  {
  }

  /** Adding a record with a new (owner, repo) pair appends exactly that record. */
  lemma AddNewAppends(s: seq<Docpack>, d: Docpack)
    requires !Any(s, ByRepo(d.repoOwner, d.repoName))
    ensures Added(s, d) == s + [d]
  {
  }

  /** Adding the same record twice stores it once. */
  lemma AddTwiceStoresOnce(s: seq<Docpack>, d: Docpack)
    ensures Added(Added(s, d), d) == Added(s, d)
  {
  }

  /** If no two records shared an (owner, repo) pair before `add`, none do after. */
  lemma AddKeepsReposUnique(s: seq<Docpack>, d: Docpack)
    requires UniqueRepos(s)
    ensures UniqueRepos(Added(s, d))
  {
  }

  /**
   * `add` never hides a record a lookup already finds: every lookup that had a
   * match answers the same afterwards.
   */
  lemma AddKeepsFoundLookups(s: seq<Docpack>, d: Docpack, q: Selector)
    requires Any(s, q)
    ensures Find(Added(s, d), q) == Find(s, q)
  {
  }

  /** After adding a record with a new pair, `getByRepo` of that pair is the record. */
  lemma AddNewThenGetByRepo(s: seq<Docpack>, d: Docpack)
    requires !Any(s, ByRepo(d.repoOwner, d.repoName))
    ensures Find(Added(s, d), ByRepo(d.repoOwner, d.repoName)) == Some(d)
  {
  }

  // ---------------------------------------------------------------------------
  // update, addLog, addJsonlData

  /** Updating with `{}` changes nothing. */
  lemma UpdateNothingIsIdentity(s: seq<Docpack>, jobId: string)
    ensures Edited(s, jobId, MergeWith(NoChange)) == s
  {
  }

  /** An edit of a job id no record has changes nothing. */
  lemma EditAbsentIsIdentity(s: seq<Docpack>, jobId: string, e: Edit)
    requires !Any(s, ById(jobId))
    ensures Edited(s, jobId, e) == s
  {
  }

  /**
   * Two updates of one job are one update with the spread of both partial
   * records, provided the first does not move the record to another id.
   */
  lemma UpdateTwiceIsOverlay(s: seq<Docpack>, jobId: string, u: Patch, v: Patch)
    requires u.id.None? || u.id == Some(jobId)
    ensures Edited(Edited(s, jobId, MergeWith(u)), jobId, MergeWith(v))
         == Edited(s, jobId, MergeWith(Overlay(u, v)))
  {
  }

  /**
   * `addLog` gives every record with the job id its old logs plus the new line
   * at the end, so the old logs are a prefix of the new; nothing else in it
   * changes and the other records are untouched.
   */
  lemma AddLogAppends(s: seq<Docpack>, jobId: string, line: string)
    ensures var r := Edited(s, jobId, AppendLog(line));
      |r| == |s| &&
      forall i :: 0 <= i < |s| ==>
        r[i].logs == (if s[i].id == jobId then s[i].logs + [line] else s[i].logs) &&
        s[i].logs <= r[i].logs &&
        r[i].(logs := s[i].logs) == s[i]
  {
  }

  /**
   * `addJsonlData` appends to `jsonlData` of the records with the job id only;
   * their `logs` and every other property stay as they were.
   */
  lemma AddJsonlAppends(s: seq<Docpack>, jobId: string, data: string)
    ensures var r := Edited(s, jobId, AppendJsonl(data));
      |r| == |s| &&
      forall i :: 0 <= i < |s| ==>
        r[i].jsonlData == (if s[i].id == jobId then s[i].jsonlData + [data] else s[i].jsonlData) &&
        r[i].logs == s[i].logs &&
        r[i].(jsonlData := s[i].jsonlData) == s[i]
  {
  }

  /**
   * An edit that keeps ids leaves `getById` of the edited job pointing at the
   * same record, now edited.
   */
  lemma EditThenGetById(s: seq<Docpack>, jobId: string, e: Edit)
    requires KeepsId(e)
    ensures Find(Edited(s, jobId, e), ById(jobId))
         == if Find(s, ById(jobId)).Some? then Some(Apply(Find(s, ById(jobId)).value, e)) else None
  {
    FirstIndexDependsOnMatchesOnly(s, Edited(s, jobId, e), ById(jobId));
  }

  /** An edit that keeps ids leaves every other job's `getById` answer alone. */
  lemma EditKeepsOtherLookups(s: seq<Docpack>, jobId: string, e: Edit, other: string)
    requires KeepsId(e) && other != jobId
    ensures Find(Edited(s, jobId, e), ById(other)) == Find(s, ById(other))
  {
  }

  /** An edit that does not touch owner or repo name keeps (owner, repo) pairs unique. */
  lemma EditKeepsReposUnique(s: seq<Docpack>, jobId: string, e: Edit)
    requires UniqueRepos(s) && KeepsRepo(e)
    ensures UniqueRepos(Edited(s, jobId, e))
  {
  }

  // ---------------------------------------------------------------------------
  // remove

  /** Removing a job id no record has changes nothing. */
  lemma {:induction false} RemoveAbsentIsIdentity(s: seq<Docpack>, jobId: string)
    requires !Any(s, ById(jobId))
    ensures Removed(s, jobId) == s
  {
    if s != [] {
      assert !Matches(s[0], ById(jobId));
      RemoveAbsentIsIdentity(s[1..], jobId);
      assert [s[0]] + s[1..] == s;
    }
  }

  /** Removing a job id a second time changes nothing. */
  lemma RemoveTwiceIsOnce(s: seq<Docpack>, jobId: string)
    ensures Removed(Removed(s, jobId), jobId) == Removed(s, jobId)
  {
  }

  /** `remove` keeps the surviving records in their original relative order. */
  lemma {:induction false} RemovedIsSubsequence(s: seq<Docpack>, jobId: string)
    ensures Subsequence(Removed(s, jobId), s)
  {
    if s != [] {
      RemovedIsSubsequence(s[1..], jobId);
      var t := Removed(s[1..], jobId);
      if s[0].id != jobId {
        assert ([s[0]] + t)[1..] == t;
      } else if t != [] {
        assert Subsequence(t, s[1..]);
      }
    }
  }

  /** Filtering a concatenation filters each part. */
  lemma {:induction false} RemoveDistributes(a: seq<Docpack>, b: seq<Docpack>, jobId: string)
    ensures Removed(a + b, jobId) == Removed(a, jobId) + Removed(b, jobId)
  {
    if a != [] {
      assert (a + b)[0] == a[0];
      assert (a + b)[1..] == a[1..] + b;
      RemoveDistributes(a[1..], b, jobId);
      if a[0].id != jobId {
        assert [a[0]] + Removed(a[1..], jobId) + Removed(b, jobId)
            == [a[0]] + (Removed(a[1..], jobId) + Removed(b, jobId));
      }
    } else {
      assert a + b == b;
    }
  }

  /** After `remove`, `getById` of that job finds nothing. */
  lemma RemoveThenGetByIdNone(s: seq<Docpack>, jobId: string)
    ensures Find(Removed(s, jobId), ById(jobId)).None?
  {
  }

  /** `remove` leaves every other job's `getById` answer alone. */
  lemma {:induction false} RemoveKeepsOtherLookups(s: seq<Docpack>, jobId: string, other: string)
    requires other != jobId
    ensures Find(Removed(s, jobId), ById(other)) == Find(s, ById(other))
  {
    if s != [] {
      RemoveKeepsOtherLookups(s[1..], jobId, other);
      var t := Removed(s[1..], jobId);
      if s[0].id != jobId && s[0].id != other {
        var r := [s[0]] + t;
        assert r[1..] == t;
        assert FirstIndex(r, ById(other)) == 1 + FirstIndex(t, ById(other));
        assert FirstIndex(s, ById(other)) == 1 + FirstIndex(s[1..], ById(other));
      } else if s[0].id == jobId {
        assert FirstIndex(s, ById(other)) == 1 + FirstIndex(s[1..], ById(other));
      }
    }
  }

  /** Removing records keeps (owner, repo) pairs unique. */
  lemma {:induction false} RemoveKeepsReposUnique(s: seq<Docpack>, jobId: string)
    requires UniqueRepos(s)
    ensures UniqueRepos(Removed(s, jobId))
  {
    if s != [] {
      RemoveKeepsReposUnique(s[1..], jobId);
      var t := Removed(s[1..], jobId);
      if s[0].id != jobId {
        var r := [s[0]] + t;
        forall i, j | 0 <= i < j < |r|
          ensures !(r[i].repoOwner == r[j].repoOwner && r[i].repoName == r[j].repoName)
        {
          if i == 0 {
            assert r[j] == t[j - 1] && t[j - 1] in t;
            var k :| 0 <= k < |s[1..]| && s[1..][k] == r[j];
            assert s[k + 1] == r[j];
          } else {
            assert r[i] == t[i - 1] && r[j] == t[j - 1];
          }
        }
      }
    }
  }

  // ---------------------------------------------------------------------------
  // lookups

  /**
   * Where `find` stops depends only on which positions match: two lists of one
   * length that match at the same positions give the same index.
   */
  lemma FirstIndexDependsOnMatchesOnly(s: seq<Docpack>, t: seq<Docpack>, q: Selector)
    requires |s| == |t|
    requires forall i :: 0 <= i < |s| ==> (Matches(s[i], q) <==> Matches(t[i], q))
    ensures FirstIndex(s, q) == FirstIndex(t, q)
  {
  }

  /** `getByRepo(o, r)` finds a record exactly when `hasDocpack(o, r)` holds. */
  lemma GetByRepoDefinedIffHas(s: seq<Docpack>, owner: string, repo: string)
    ensures Find(s, ByRepo(owner, repo)).Some? <==> Any(s, ByRepo(owner, repo))
  {
  }

  /** While pairs are unique, `getByRepo` of a stored record's pair is that record. */
  lemma GetByRepoUnique(s: seq<Docpack>, x: Docpack)
    requires UniqueRepos(s) && x in s
    ensures Find(s, ByRepo(x.repoOwner, x.repoName)) == Some(x)
  {
  }
}
