/** The data that the paged lister works on, and its sequential meaning: the flat
    concatenation of all chunks of all partitions (pkg/stores/partition/parallel.go). */
module Listing {

  datatype Option<+T> = None | Some(value: T)

  datatype APIObject = APIObject(namespace: string, name: string)

  // `next` is the list's Continue; the empty string ends a chain of chunks.
  datatype APIObjectList = APIObjectList(objects: seq<APIObject>, revision: string, next: string)

  // The resume token, before its encoding.
  datatype ListState = ListState(revision: string, partitionName: string, cont: string, offset: int, limit: int)

  const FRESH := ListState("", "", "", 0, 0)

  /** One call of the parallel lister. `list` is the PartitionLister, applied to a partition,
      a continue token, a revision and a limit. `rank` bounds the number of chunks that follow. */
  datatype Job = Job(
    list: (string, string, string, int) -> APIObjectList,
    rank: (string, string, int) -> nat,
    concurrency: int,
    partitions: seq<string>,
    start: ListState,
    limit: int)

  // Nothing changes while the pages are read: the answer does not depend on the revision
  // that is asked for, and every chain of continue tokens ends.
  ghost predicate Unchanging(c: Job) {
    && (forall p, cont, rev :: c.list(p, cont, rev, c.limit) == c.list(p, cont, "", c.limit))
    && (forall p, cont :: c.list(p, cont, "", c.limit).next != "" ==>
                            c.rank(p, c.list(p, cont, "", c.limit).next, c.limit) < c.rank(p, cont, c.limit))
  }

  // Partition names are distinct, and only the first partition may be the nameless one.
  ghost predicate WellNamed(partitions: seq<string>) {
    && (forall i, j :: 0 <= i < j < |partitions| ==> partitions[i] != partitions[j])
    && (forall i :: 0 < i < |partitions| ==> partitions[i] != "")
  }

  function Chunk(c: Job, p: string, cont: string): APIObjectList {
    c.list(p, cont, "", c.limit)
  }

  // Whether another chunk follows. Where nothing changes, this is just `next != ""`.
  predicate Continues(c: Job, p: string, cont: string) {
    var next := Chunk(c, p, cont).next;
    next != "" && c.rank(p, next, c.limit) < c.rank(p, cont, c.limit)
  }

  // All objects of a partition from a continue token on.
  function Chain(c: Job, p: string, cont: string): seq<APIObject>
    decreases c.rank(p, cont, c.limit), 1
  {
    Chunk(c, p, cont).objects + After(c, p, cont)
  }

  // What follows the chunk at `cont`.
  function After(c: Job, p: string, cont: string): seq<APIObject>
    decreases c.rank(p, cont, c.limit), 0
  {
    if Continues(c, p, cont) then Chain(c, p, Chunk(c, p, cont).next) else []
  }

  // The number of chunks from a continue token on.
  function ChunkCount(c: Job, p: string, cont: string): nat
    decreases c.rank(p, cont, c.limit)
  {
    if Continues(c, p, cont) then 1 + ChunkCount(c, p, Chunk(c, p, cont).next) else 1
  }

  function ContFor(st: ListState, p: string): string {
    if p == st.partitionName then st.cont else ""
  }

  predicate Skips(st: ListState, p: string, objects: seq<APIObject>) {
    st.partitionName == p && 0 < st.offset < |objects|
  }

  // The part of a chunk that a resumed listing still owes.
  function Skip(st: ListState, p: string, objects: seq<APIObject>): seq<APIObject> {
    if Skips(st, p, objects) then objects[st.offset..] else objects
  }

  function Rest(c: Job, st: ListState, p: string): seq<APIObject>
  {
    Skip(st, p, Chunk(c, p, ContFor(st, p)).objects) + After(c, p, ContFor(st, p))
  }

  // The sequences k, k+1, ... one after the other, and then the tail.
  function Concat(outs: seq<seq<APIObject>>, tail: seq<APIObject>, k: nat): seq<APIObject>
    decreases |outs| - k
  {
    if k >= |outs| then tail else outs[k] + Concat(outs, tail, k + 1)
  }

  // What each partition owes to a resumed listing.
  function Rests(c: Job, st: ListState): seq<seq<APIObject>> {
    seq(|c.partitions|, j requires 0 <= j < |c.partitions| => Rest(c, st, c.partitions[j]))
  }

  // The partitions i, i+1, ... of a resumed listing.
  function ListingFrom(c: Job, st: ListState, i: nat): seq<APIObject> {
    Concat(Rests(c, st), [], i)
  }

  lemma {:induction false} ListingStep(c: Job, st: ListState, i: nat)
    requires i < |c.partitions|
    ensures ListingFrom(c, st, i) == Rest(c, st, c.partitions[i]) + ListingFrom(c, st, i + 1)
  {
  }

  lemma {:induction false} ConcatAgrees(a: seq<seq<APIObject>>, b: seq<seq<APIObject>>, tail: seq<APIObject>, k: nat)
    requires |a| == |b| && forall j :: k <= j < |a| ==> a[j] == b[j]
    ensures Concat(a, tail, k) == Concat(b, tail, k)
    decreases |a| - k
  {
    if k < |a| {
      ConcatAgrees(a, b, tail, k + 1);
    }
  }

  // The end of one sequence of outputs is the end of another.
  lemma {:induction false} ConcatWithin(a: seq<seq<APIObject>>, b: seq<seq<APIObject>>, at: nat, k: nat)
    requires k <= |a| && at + |a| == |b| && forall j :: k <= j < |a| ==> a[j] == b[at + j]
    ensures Concat(a, [], k) == Concat(b, [], at + k)
    decreases |a| - k
  {
    if k < |a| {
      assert a[k] == b[at + k];
      ConcatWithin(a, b, at, k + 1);
    }
  }

  function ResumeIndex(partitions: seq<string>, name: string): (i: nat)
    ensures i < |partitions| || i == 0
  {
    if name == "" then 0 else IndexFrom(partitions, name, 0)
  }

  function IndexFrom(partitions: seq<string>, name: string, i: nat): (r: nat)
    ensures r < |partitions| || r == 0
    decreases |partitions| - i
  {
    if i >= |partitions| then 0
    else if partitions[i] == name then i
    else IndexFrom(partitions, name, i + 1)
  }

  lemma {:induction false} IndexFromFinds(partitions: seq<string>, i: nat, k: nat)
    requires WellNamed(partitions) && i <= k < |partitions|
    ensures IndexFrom(partitions, partitions[k], i) == k
    decreases k - i
  {
    if i < k {
      IndexFromFinds(partitions, i + 1, k);
    }
  }

  method IndexOrZero(partitions: seq<string>, name: string) returns (r: nat)
    ensures r == ResumeIndex(partitions, name)
    ensures name == "" || name !in partitions ==> r == 0
    ensures name != "" && name in partitions ==>
              r < |partitions| && partitions[r] == name && name !in partitions[..r]
  {
    if name == "" {
      return 0;
    }
    for i := 0 to |partitions|
      invariant name !in partitions[..i]
      invariant ResumeIndex(partitions, name) == IndexFrom(partitions, name, i)
    {
      if partitions[i] == name {
        return i;
      }
    }
    return 0;
  }

  // A token names the one partition it was cut in.
  lemma {:induction false} ResumeIndexOf(partitions: seq<string>, k: nat)
    requires WellNamed(partitions) && k < |partitions|
    ensures ResumeIndex(partitions, partitions[k]) == k
  {
    if partitions[k] != "" {
      IndexFromFinds(partitions, 0, k);
    }
  }

  /** The listing that a token stands for: the rest of its chunk, the chunks that continue it,
      then all later partitions. FRESH stands for the whole listing. */
  function Denote(c: Job, st: ListState): seq<APIObject>
  {
    ListingFrom(c, st, ResumeIndex(c.partitions, st.partitionName))
  }

  // Past the partition that a state names, two states read the same.
  lemma {:induction false} LaterPartitionsAgree(c: Job, a: ListState, b: ListState, i: nat)
    requires forall j :: i <= j < |c.partitions| ==>
             c.partitions[j] != a.partitionName && c.partitions[j] != b.partitionName
    ensures ListingFrom(c, a, i) == ListingFrom(c, b, i)
  {
    ConcatAgrees(Rests(c, a), Rests(c, b), [], i);
  }

  // No partition after the resume index carries the resumed name.
  lemma {:induction false} NamedOnce(c: Job, st: ListState, j: nat)
    requires WellNamed(c.partitions) && ResumeIndex(c.partitions, st.partitionName) < j < |c.partitions|
    ensures c.partitions[j] != st.partitionName
  {
    if c.partitions[j] == st.partitionName {
      ResumeIndexOf(c.partitions, j);
    }
  }

  // What a token stands for, from its own partition on.
  lemma {:induction false} DenoteNamed(c: Job, st: ListState, i: nat)
    requires WellNamed(c.partitions) && i < |c.partitions| && c.partitions[i] == st.partitionName
    ensures Denote(c, st) == Rest(c, st, st.partitionName) + ListingFrom(c, st, i + 1)
    ensures ListingFrom(c, st, i + 1) == ListingFrom(c, st.(offset := 0), i + 1)
  {
    ResumeIndexOf(c.partitions, i);
    ListingStep(c, st, i);
    forall j | i < j < |c.partitions| ensures c.partitions[j] != st.partitionName {
      NamedOnce(c, st, j);
    }
    LaterPartitionsAgree(c, st, st.(offset := 0), i + 1);
  }

  lemma {:induction false} CutAndJoin(objects: seq<APIObject>, n: nat, after: seq<APIObject>, later: seq<APIObject>)
    requires n <= |objects|
    ensures (objects + after) + later == objects[..n] + ((objects[n..] + after) + later)
  {
    assert objects == objects[..n] + objects[n..];
  }

  /** A token's offset drops that much of its chunk; an offset that does not lie inside the chunk drops nothing. */
  lemma {:induction false} OffsetSkips(c: Job, st: ListState)
    requires WellNamed(c.partitions) && st.partitionName in c.partitions
    ensures var objects := Chunk(c, st.partitionName, st.cont).objects;
            Denote(c, st.(offset := 0)) ==
            if 0 < st.offset < |objects| then objects[..st.offset] + Denote(c, st) else Denote(c, st)
  {
    var i :| 0 <= i < |c.partitions| && c.partitions[i] == st.partitionName;
    DenoteNamed(c, st, i);
    DenoteNamed(c, st.(offset := 0), i);
    var objects := Chunk(c, st.partitionName, st.cont).objects;
    if 0 < st.offset < |objects| {
      CutAndJoin(objects, st.offset, After(c, st.partitionName, st.cont), ListingFrom(c, st, i + 1));
    }
  }
}
