/**
 * The docpack store: one mutable cell holding the ordered record list. Each
 * mutating operation replaces the list by a function of the old one; the
 * lookups read the current list.
 */
module DocpackStore {
  import opened Wrappers
  import opened DocpackRecord
  import opened DocpackList
  import DocpackLaws

  /** What reading the saved list at start-up yields. */
  datatype StorageRead =
    | NotInBrowser                    // rendered on the server: no storage to read
    | NoItem                          // the key is missing or holds the empty string
    | Unparseable                     // the saved text does not parse
    | Parsed(docpacks: seq<Docpack>)  // the saved list

  class Store {
    var docpacks: seq<Docpack>

    /** The initial state: the saved list when one parses, otherwise the empty list. */
    constructor (read: StorageRead)
      ensures read.Parsed? ==> docpacks == read.docpacks
      ensures !read.Parsed? ==> docpacks == []
    {
      docpacks := if read.Parsed? then read.docpacks else [];
    }

    /** Starts tracking a job, unless its repository already has a record. */
    method Add(docpack: Docpack)
      modifies this
      ensures docpacks == Added(old(docpacks), docpack)
    {
      docpacks := Added(docpacks, docpack);
    }

    /** Merges `updates` into every record with the job id. */
    method Update(jobId: string, updates: Patch)
      modifies this
      ensures docpacks == Edited(old(docpacks), jobId, MergeWith(updates))
    {
      docpacks := Edited(docpacks, jobId, MergeWith(updates));
    }

    /** Appends one log line to every record with the job id. */
    method AddLog(jobId: string, log: string)
      modifies this
      ensures docpacks == Edited(old(docpacks), jobId, AppendLog(log))
    {
      docpacks := Edited(docpacks, jobId, AppendLog(log));
    }

    /** Appends one JSONL line to every record with the job id. */
    method AddJsonlData(jobId: string, data: string)
      modifies this
      ensures docpacks == Edited(old(docpacks), jobId, AppendJsonl(data))
    {
      docpacks := Edited(docpacks, jobId, AppendJsonl(data));
    }

    /** Drops every record with the job id. */
    method Remove(jobId: string)
      modifies this
      ensures docpacks == Removed(old(docpacks), jobId)
    {
      docpacks := Removed(docpacks, jobId);
    }

    /** Whether some record belongs to the repository. */
    method HasDocpack(owner: string, repo: string) returns (b: bool)
      ensures b <==> exists i :: 0 <= i < |docpacks| && Matches(docpacks[i], ByRepo(owner, repo))
    {
      b := Any(docpacks, ByRepo(owner, repo));
    }

    /** The first record with the job id, if any. */
    method GetById(jobId: string) returns (r: Option<Docpack>)
      ensures r == Find(docpacks, ById(jobId))
    {
      r := Find(docpacks, ById(jobId));
    }

    /** The first record of the repository, if any. */
    method GetByRepo(owner: string, repo: string) returns (r: Option<Docpack>)
      ensures r == Find(docpacks, ByRepo(owner, repo))
    {
      r := Find(docpacks, ByRepo(owner, repo));
    }

    /** Forgets every record. */
    method Clear()
      modifies this
      ensures docpacks == []
    {
      docpacks := [];
    }
  }

  /** Adding the same job twice through the store keeps one record for its repository. */
  method AddTwiceKeepsOne(store: Store, d: Docpack)
    requires UniqueRepos(store.docpacks)
    modifies store
    ensures UniqueRepos(store.docpacks)
    ensures |store.docpacks| <= |old(store.docpacks)| + 1
    ensures Find(store.docpacks, ByRepo(d.repoOwner, d.repoName)).Some?
  {
    store.Add(d);
    DocpackLaws.AddKeepsReposUnique(old(store.docpacks), d);
    store.Add(d);
    DocpackLaws.AddTwiceStoresOnce(old(store.docpacks), d);
  }
}
