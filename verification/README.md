# Verified models of the brent API server core

Brent serves Kubernetes resources to users through a steve-style API. This project models the parts
of it whose behaviour is hardest to see from one function, and proves what they keep:

1. **The parallel paged lister** (`pkg/stores/partition`). Partitions are listed concurrently, the
   output is put in order by a chain of channels, a shared capacity cuts the page, and a token
   resumes it. `ParallelRun` is the step system (feeder, one process per launched partition, tickets,
   shared fields), `RunInvariant` what every step keeps under every schedule, `Paging` the results
   about one page, `Pagination` those about whole paginations, `Truncation` the exact case in which a
   page loses its token, `EndlessPages` the exact case in which the pages never end, `Revisions` the
   revisions that lists are read at and pages carry, and `PartitionStore` the lister as the object the
   code updates in place.
   The sequential meaning that all of it is compared with is in `Listing`.
2. **From role bindings to visible objects** (`pkg/accesscontrol`, `pkg/schema/factory.go`,
   `pkg/stores/proxy`). `BindingIndex` is the registration and lookup of bindings by subject,
   `AccessSets` the wildcard index, `PolicyRules` its construction from rules,
   `CacheKeys` the union over groups and the stream that the cache key hashes, `AccessStores` the
   cache, `SchemaAccess` the access lists of a user's schema, `RbacPartitions` the partitions,
   `VisibleListing` what they show, `ChunkedStore` what a partition's store answers chunk by chunk,
   and `EndToEnd` puts the two halves together: all pages of a listing show exactly what the rules
   allow.
3. **Sessions and life cycles.** `WatchSession` is the subscribe session, `RefreshQueue` the dirty
   flag of the schema refresh, `TemplateLifecycle` the running templates across resets,
   `SchemaGraph` the closure of visible schemas, `SchemaEvents` the events that keep a client's view
   of them, and `ReservedFields` the renaming of reserved fields.

Code that changes state in place is a class whose methods are proved against a function of the old
state (or a relation to it); the results are then about that function. Concurrent code is a set of
enabled steps, one for each action that another goroutine can observe, and a run is any sequence of
enabled steps. Automatic induction is off on every lemma: each inductive proof is the one written.

## Assumptions

- Paging: the answer for a partition, a continue token and a limit does not change while pages are
  read and does not depend on the revision (`Paging.Sound`), every continue chain ends, partition
  names are distinct and only the first may be empty (proved of the partitions of a namespaced
  request without a namespace: `VisibleListing.PartitionOrder`), no call fails and the request is
  not cancelled, and somebody reads the result channel. That no answer is longer than its limit
  (`Paging.ChunksWithin`) is needed for the multi-page results only; `Paging.ExactResume` and
  `EndlessPages` say what happens without it.
- Listing: the cluster answers every client with all objects of the namespace. In the code a partition
  that holds a whole namespace is listed with the user's client, and one that holds names with the
  administrator's; a user's client may refuse more than the access lists say, so
  `VisibleListing.ConstraintReplacesNamespace` shows objects only as far as the cluster gives them out.
- Bindings: a list by an index key that was never registered is an error, and the program takes an error
  as no bindings (`BindingIndex.Finds`). The client that lists is not part of this model.
- Cache: the digest is injective, a role revision identifies the rules of the role over the whole
  history, no namespace is named like a revision, and names and revisions hold no null byte
  (`CacheKeys.Consistent`, which `BindingIndex.ServedConsistently` derives from what revisions are).
  The key of a lookup is taken in one world and its content is read in another; a recorded revision that
  lags behind its role is a key taken in the older world.
- Schemas: the schema map is keyed by schema ID, and the element type of a type is the type itself
  or a shorter string (`SchemaGraph.WellFormed`).
- Objects of namespaced schemas have a namespace that is neither empty nor `*`, and role bindings
  have a namespace.

## What the proofs found

- A page can end without a token although objects are left: when a partition ends exactly where the
  page ends, the feeder may see a used-up capacity and stop, and nobody saves a token
  (`Truncation.TruncatesExactly`, `Truncation.OneObjectIsLost`).
- A resumed chunk that is cut by the token's offset and is over the page again is saved with an
  offset into the cut chunk, so the next page repeats objects (`EndlessPages.CoincidingPageRepeats`).
  It takes an answer longer than its limit. If a token is into a chunk of more than twice the limit,
  all later pages are the same and the last of the chunk is never shown (`EndlessPages.EndsExactly`,
  `EndlessPages.ThirdObjectIsNeverShown`).
- A namespace constraint replaces the namespace of a request that has the whole namespace granted
  (`VisibleListing.ConstraintReplacesNamespace`, `VisibleListing.ForeignObjectIsListed`).
- What a list shows and what the access set grants for lists differ both ways: a grant by name for all
  namespaces alone is not shown, and what can be read by name is shown without a grant for lists
  (`EndToEnd.GrantedButInvisible`, `EndToEnd.VisibleButNotGranted`, `EndToEnd.ListsAndGrantsDiffer`).
- Role bindings are indexed under the key of cluster role bindings
  (`pkg/accesscontrol/policy_rule_index.go:48`) and looked up under another (line 190): no role binding is
  ever found, and only cluster role bindings count (`BindingIndex.KeysMustAgree`,
  `BindingIndex.RoleBindingsAreIgnored`, `BindingIndex.OwnerHasNoAccess`).
- A lookup takes its cache key and reads the bindings one after the other. If the user's access changes in
  between, the new access is cached under the old key, and every user with that key gets it, in the worst
  case all users without bindings (`AccessStores.AccessStore.AccessFor`, `AccessStores.WrongHit`).
- The fallback list of namespaces goes by entries under the verbs get and list themselves. Namespaces in
  which the user's rules have the wildcard verb only are not shown, although everything may be read there
  (`EndToEnd.FallbackExactly`, `EndToEnd.AdminSeesNoNamespace`). Access that is bound to all namespaces
  does not count either.
- A stream's own deferred stop goes by key: if the client stopped the stream and subscribed again,
  the old stream stops the new one (`WatchSession.WhenItKillsAnother`,
  `WatchSession.ResubscriptionIsKilled`). And a client can get the stop of a subscription before its start
  (`WatchSession.StopCanComeFirst`). A subscription to an ID of namespace and name can share its key
  with another one, which is then ignored (`WatchSession.KeysCollide`).
- A stream whose store has no channel waits for the context of the request, which neither its own
  cancel nor the session's ends, and the session waits for the stream: it hangs until the request ends
  (`WatchSession.ClosesExactly`, `WatchSession.StuckExactly`, `WatchSession.IdleHangs`).
  `pkg/stores/empty` has such a watch.
- A schema that becomes visible with the body it had while it was hidden is never sent to the client
  (`SchemaEvents.DiffExact`, `SchemaEvents.RevivedIsLost`). Bodies are compared without the access
  attribute on the new side only, so a schema with an access attribute is sent on every refresh
  (`SchemaEvents.ResentExactly`, `SchemaEvents.NothingChangedIsSent`).
- After a failed refresh the flag is set again but nothing is started: the schemas stay stale until
  the next change (`RefreshQueue.CurrentExactly`, `RefreshQueue.FailureWaitsForTheNextChange`).
- Fields of the client that use an underscored reserved name, and reserved fields set by the client,
  do not survive the round trip (`ReservedFields.OutAndBack`, `ReservedFields.InAndBack`).
- The cache key of a user depends on the order of its groups, although the code at
  `pkg/accesscontrol/access_store.go:80-84` means to sort them: it sorts a copy that has no elements
  (`CacheKeys.KeyFollowsOrder`, `CacheKeys.OrderMissesCache`).

## Model

| member | source | states |
|---|---|---|
| `Listing.IndexOrZero` | pkg/stores/partition/parallel.go:47-57 | the first partition of the token's name; the first of all if there is none |
| `Listing.ResumeIndexOf` | pkg/stores/partition/parallel.go:47-57 | with distinct names, the token of a partition resumes at that very partition |
| `Listing.OffsetSkips` | pkg/stores/partition/parallel.go:157-159 | a token's offset drops that much of its chunk, and nothing if it does not lie inside the chunk |
| `ParallelRun.ExecConcat` | pkg/stores/partition/parallel.go:88-189 | runs of the step system compose |
| `RunInvariant.InitInv` | pkg/stores/partition/parallel.go:88-93 | every call starts in the invariant, whatever the token |
| `RunInvariant.FeederKeeps` | pkg/stores/partition/parallel.go:104-130 | checking capacity, launching a partition and ending the loop keep the invariant |
| `RunInvariant.FetchKeeps` | pkg/stores/partition/parallel.go:135-142 | a list call outside the turn keeps the invariant: it reads the process's own chunk |
| `RunInvariant.WaitKeeps` | pkg/stores/partition/parallel.go:144-147 | only the lowest open process gets past its turn |
| `RunInvariant.DeliverKeeps` | pkg/stores/partition/parallel.go:149-174 | what is sent is exactly the front of what is still owed |
| `RunInvariant.BookKeeps` | pkg/stores/partition/parallel.go:173-183 | after a chunk that fits, capacity and the rest of the chain account for it |
| `RunInvariant.SaveKeeps` | pkg/stores/partition/parallel.go:161-172 | the saved token stands for what is still owed, up to the coinciding case |
| `RunInvariant.StepKeepsInv` | pkg/stores/partition/parallel.go:104-188 | every enabled step keeps the whole invariant: order, faithful chunks, conservation, tickets, accounting |
| `RunInvariant.RunKeepsInv` | pkg/stores/partition/parallel.go:104-188 | so does every schedule |
| `Paging.OrderUnderAllInterleavings` | pkg/stores/partition/parallel.go:109-117 | under every schedule the output is a prefix of the sequential listing, and at most one process is inside its turn |
| `Paging.ExactResume` | pkg/stores/partition/parallel.go:134-183 | the output followed by what the saved token stands for is the listing that the start stood for, if and only if no chunk is both cut by the offset and over the page; such a page is full |
| `Paging.BoundedChunksNeverCoincide` | pkg/stores/partition/parallel.go:139-168 | a list that respects its limit excludes that case |
| `Paging.CompleteWithoutToken` | pkg/stores/partition/parallel.go:104-188 | a closed page without a token lacks only the partitions that were never launched, and then it is exactly full |
| `Paging.Conservation` | pkg/stores/partition/parallel.go:161-175 | objects sent plus capacity equal the limit in every state, up to a send whose bookkeeping is pending |
| `Paging.RevisionIs` | pkg/stores/partition/parallel.go:149-171 | when all answers are of one revision, a run that sent or saved anything reports that revision, and so does its token |
| `Paging.TicketsBounded` | pkg/stores/partition/parallel.go:119-133 | tickets held equal those of the unfinished processes and never exceed the concurrency; a first page runs one partition at a time |
| `Paging.LowestCanStep` | pkg/stores/partition/parallel.go:130-188 | the lowest unfinished process always has its turn |
| `Paging.SomeoneCanStep` | pkg/stores/partition/parallel.go:96-188 | every open state has a step |
| `Paging.StepDoesWork` | pkg/stores/partition/parallel.go:104-188 | every step lowers a measure of launches and chunks left |
| `Paging.RunsAreBounded` | pkg/stores/partition/parallel.go:104-188 | no schedule is longer than that measure: every run ends |
| `Paging.Finish` | pkg/stores/partition/parallel.go:104-188 | every state of a run can be driven on until the channel is closed |
| `Paging.DeadlockFreeExactly` | pkg/stores/partition/parallel.go:119-126 | runs never get stuck, and some run closes the channel, if and only if one list's tickets fit the concurrency or nothing is to be launched |
| `Paging.ClosedIsFinal` | pkg/stores/partition/parallel.go:96-102 | the channel is closed once, after the last send |
| `Pagination.GetLimit` | pkg/stores/partition/store.go:167-177 | the limit of a request is the one asked for if that is positive, and 100000 otherwise |
| `Pagination.ResumedSame` | pkg/stores/partition/parallel.go:59-73 | a token restores the limit of its page, so it means the same to the next request, whatever that asks for |
| `Pagination.PageExact` | pkg/stores/partition/store.go:93-104 | one page and what its token stands for make up the listing |
| `Pagination.PaginationExact` | pkg/stores/partition/parallel.go:36-73 | following the tokens never repeats, drops or reorders an object, for all schedules of all pages and all limits asked later |
| `Pagination.PagesBounded` | pkg/stores/partition/parallel.go:161-172 | pages times limit is bounded by the size of the listing: paginations end |
| `Pagination.PaginationEnds` | pkg/stores/partition/parallel.go:36-78 | from every start a sequence of pages leads to one without a token |
| `Pagination.FreshFrom` | pkg/stores/partition/parallel.go:59-86 | no token stands for the whole listing |
| `Pagination.WholePagination` | pkg/stores/partition/parallel.go:36-189 | a pagination from the start to a page that launched every partition is the plain concatenation of the partitions' chains |
| `Truncation.TruncationIsAtBoundary` | pkg/stores/partition/parallel.go:104-107 | a page that drops objects without a token stopped between two partitions, with the capacity just used up |
| `Truncation.BoundaryTruncates` | pkg/stores/partition/parallel.go:104-107 | and whenever there is such a place, some schedule drops the rest |
| `Truncation.TruncatesExactly` | pkg/stores/partition/parallel.go:104-177 | a page can drop objects without a token if and only if a partition ends exactly at the page's limit with objects behind it |
| `Truncation.OneObjectIsLost` | pkg/stores/partition/parallel.go:104-177 | a run over two partitions of one object each, at limit one, that closes without a token and has sent the first object only |
| `EndlessPages.OverflowingPage` | pkg/stores/partition/parallel.go:157-172 | a page whose first chunk is over the limit sends the front of that chunk, and its token names the same chunk at offset limit |
| `EndlessPages.CoincidingPageRepeats` | pkg/stores/partition/parallel.go:157-170 | in the case excluded from exact resume every page ends in a token, and the token stands for the rest of the listing with exactly `Offset` objects of the chunk put before it again |
| `EndlessPages.BigNeverEnds` | pkg/stores/partition/parallel.go:157-172 | from a token into a chunk of more than twice the limit every page has a token, and all pages after the first are the same |
| `EndlessPages.PageShrinks` | pkg/stores/partition/parallel.go:157-172 | any other token brings the listing closer to its end |
| `EndlessPages.EndsExactly` | pkg/stores/partition/parallel.go:36-78 | with no bound on the answers: after every sequence of pages the rest can be read to its end if and only if no token on the way is into a chunk of more than twice the limit |
| `EndlessPages.SmallChunksEnd` | pkg/stores/partition/parallel.go:36-78 | answers of up to twice the limit let the pages end |
| `EndlessPages.ThirdObjectIsNeverShown` | pkg/stores/partition/parallel.go:157-172 | three objects at limit one: the pages are x, then y for ever |
| `EndlessPages.ATokenCoincides` | pkg/stores/partition/parallel.go:157-172 | that listing has a first page, and its token coincides |
| `Revisions.RunKeepsCalls` | pkg/stores/partition/parallel.go:134-183 | whatever the lists answer and whatever the schedule, every call for a partition is one of the calls that reading it by itself makes, at the same token and revision, and a saved token names the list that was cut |
| `Revisions.CallsAtOneRevision` | pkg/stores/partition/parallel.go:149-151 | all lists of a partition are asked for at the token's revision or, without one, from the second on at that of the first |
| `Revisions.TokenRevision` | pkg/stores/partition/parallel.go:161-170 | the revision of a token is that of the list that was cut, whatever the revisions of the others |
| `Revisions.PageRevision` | pkg/stores/partition/parallel.go:153-155 | the revision of a page is that of its first list |
| `Revisions.NextPageReadsAtTheCut` | pkg/stores/partition/parallel.go:59-73 | the page after a token reads every list at the revision of the list that was cut |
| `PartitionStore.ParallelPartitionLister.constructor` | pkg/stores/partition/parallel.go:88-93 | a new lister is in the initial state |
| `PartitionStore.ParallelPartitionLister.FeederStep` | pkg/stores/partition/parallel.go:96-130 | the feeder, updating the shared fields, takes the step of the step system |
| `PartitionStore.ParallelPartitionLister.PartitionStep` | pkg/stores/partition/parallel.go:130-185 | so does a partition's goroutine |
| `PartitionStore.ParallelPartitionLister.Send` | pkg/stores/partition/parallel.go:149-174 | the guarded part of the loop: skip, cut and send |
| `PartitionStore.AnyStep` | pkg/stores/partition/parallel.go:88-189 | an open lister always has a step to take, and the step is one of the step system |
| `PartitionStore.List` | pkg/stores/partition/store.go:72-105 | for any scheduler the list operation ends; a bad token is refused; otherwise the answer is a prefix of the listing within the limit, a token continues it exactly unless a chunk coincides, no token after a full launch or a short page means that the listing is complete; the page has the revision of its first list and the token that of the list that was cut |
| `PartitionStore.JobOf` | pkg/stores/partition/parallel.go:59-78 | a token's start and positive limit replace those of the request; without a token the lister starts from nothing, with three tickets |
| `AccessSets.LookupKeysAnswer` | pkg/accesscontrol/access_set.go:61-70 | the three nested lookup loops visit exactly the keys whose parts are the wildcard or the part looked up |
| `AccessSets.AccessSet.Add` | pkg/accesscontrol/access_set.go:108-121 | adds exactly one access |
| `AccessSets.AccessSet.Merge` | pkg/accesscontrol/access_set.go:44-59 | is the union of the two indexes, for every map order |
| `AccessSets.AccessSet.Grants` | pkg/accesscontrol/access_set.go:61-81 | true if and only if some access under an answering key allows the namespace and the name |
| `AccessSets.AccessSet.AccessListFor` | pkg/accesscontrol/access_set.go:83-106 | holds each access found under an answering key once, and nothing else |
| `AccessSets.AccessSet.Namespaces` | pkg/accesscontrol/access_set.go:24-42 | the namespaces with an entry under the verb get or list itself, strictly sorted |
| `AccessSets.ReadAccessEntries` | pkg/accesscontrol/access_set.go:24-42 | get or list access is found in a namespace if and only if it has such an entry, or one under the wildcard verb |
| `AccessSets.LessExactly` | pkg/stores/proxy/rbac_store.go:90-92 | the order of strings goes by the first character that differs, and a string comes before its extensions |
| `BindingIndex.ClusterRoleBindingBySubject` | pkg/accesscontrol/policy_rule_index.go:56-67 | indexes a cluster role binding under exactly the users or groups and service accounts it is for, if it refers to a cluster role |
| `BindingIndex.RoleBindingBySubject` | pkg/accesscontrol/policy_rule_index.go:69-80 | the same for a role binding, whatever it refers to |
| `BindingIndex.SixSubjectsIndexed` | pkg/accesscontrol/policy_rule_index.go:56-80 | one binding, written out: what each indexer says of users, groups, service accounts and subjects of other API groups or without a namespace |
| `BindingIndex.NewPolicyRuleIndex` | pkg/accesscontrol/policy_rule_index.go:30-54 | the keys of the index, and what is registered: both indexers under the cluster key, up to the first failure |
| `BindingIndex.GetBindings` | pkg/accesscontrol/policy_rule_index.go:171-201 | exactly the bindings that the looked-up key finds, in the order of their names or UIDs; none if the key is not registered |
| `BindingIndex.ReadSubject` | pkg/accesscontrol/policy_rule_index.go:112-124 | the role references and namespaces that a subject's lookups give to the compilation of rules |
| `BindingIndex.FindsExactly` | pkg/accesscontrol/policy_rule_index.go:187-194 | role bindings are found under exactly their subjects if and only if the looked-up key is registered for role bindings with an indexer of the same kind |
| `BindingIndex.KeysMustAgree` | pkg/accesscontrol/policy_rule_index.go:44-51 | what an index registers lets it find its role bindings if and only if its two keys are the same and no registration fails |
| `BindingIndex.NoRoleBindingIsFound` | pkg/accesscontrol/policy_rule_index.go:35-53 | with the keys of the program no lookup of role bindings gives any |
| `BindingIndex.AllowedByBindings` | pkg/accesscontrol/policy_rule_index.go:112-201 | with keys that find the role bindings, a user is allowed what a binding of either kind, of the user or of one of its groups, has a rule for |
| `BindingIndex.RoleBindingsAreIgnored` | pkg/accesscontrol/policy_rule_index.go:44-53 | with the keys of the program a user is allowed what cluster role bindings allow, which is right for a request if and only if one of them allows it or no role binding does |
| `BindingIndex.OwnerHasNoAccess` | pkg/accesscontrol/policy_rule_index.go:44-53 | a user with one role binding to everything in a namespace is allowed nothing |
| `BindingIndex.ServedConsistently` | pkg/accesscontrol/policy_rule_index.go:56-67 | the assumption of the cache follows from revisions that identify rules, since the indexer lets only bindings to cluster roles through |
| `PolicyRules.AddAccess` | pkg/accesscontrol/policy_rule_index.go:126-149 | adds exactly what the rules of the role say, in the namespace of the binding |
| `PolicyRules.Get` | pkg/accesscontrol/policy_rule_index.go:112-124 | the index of a subject holds exactly what its role and cluster role bindings add |
| `PolicyRules.RulesRefined` | pkg/accesscontrol/policy_rule_index.go:126-149 | looking up what rules added allows a request if and only if one of the rules allows it |
| `PolicyRules.SubjectRefined` | pkg/accesscontrol/policy_rule_index.go:112-169 | the same for all bindings of a subject |
| `PolicyRules.AllowedByStoredRoles` | pkg/accesscontrol/policy_rule_index.go:112-169 | a subject is allowed a request if and only if one of its stored bindings, for all namespaces or that of the request, refers to a stored cluster role, or role of the binding's namespace, one of whose rules allows it |
| `PolicyRules.FourRules` | pkg/accesscontrol/policy_rule_index.go:126-169 | two roles of two rules each, written out: every rule counts, where it is bound, for its verbs, groups, resources and names |
| `CacheKeys.IndexRefinesRules` | pkg/accesscontrol/access_store.go:61-64 | the access set of a user grants a request if and only if a binding of the user or of one of its groups has a rule that allows it |
| `CacheKeys.SplitJoin` | pkg/accesscontrol/policy_rule_index.go:82-110 | the null-separated stream splits back into its tokens |
| `CacheKeys.StreamWrittenOut` | pkg/accesscontrol/policy_rule_index.go:84-110 | one stream, token by token: cluster roles, a missing role, roles of bindings of either kind and of neither, and groups |
| `CacheKeys.StreamDecodes` | pkg/accesscontrol/policy_rule_index.go:84-110 | the hashed stream determines the access it stands for, although cluster bindings write two tokens and role bindings three |
| `CacheKeys.EqualKeysEqualAccess` | pkg/accesscontrol/access_store.go:74-89 | equal cache keys mean equal access, at any two times and for any two users |
| `CacheKeys.KeyFollowsOrder` | pkg/accesscontrol/access_store.go:79-86 | two orders of a user's groups have one cache key if and only if they hash the same tokens |
| `CacheKeys.OrderMissesCache` | pkg/accesscontrol/access_store.go:79-86 | two groups, each with a role of its own, in two orders, have two cache keys |
| `AccessStores.AccessStore.constructor` | pkg/accesscontrol/access_store.go:40-47 | a new store has an empty cache |
| `AccessStores.AccessStore.AddRolesToHash` | pkg/accesscontrol/policy_rule_index.go:84-110 | writes the tokens of a subject to the digest |
| `AccessStores.AccessStore.CacheKey` | pkg/accesscontrol/access_store.go:74-89 | hashes the stream of the user and of its groups in the user's order |
| `AccessStores.AccessStore.Compute` | pkg/accesscontrol/access_store.go:61-64 | a new set with exactly what the bindings of the user and of its groups add in one world |
| `AccessStores.AccessStore.AccessFor` | pkg/accesscontrol/access_store.go:50-72 | with a world at the key and another at the read: a hit gives what was cached, a miss what is read, cached under the key; the cache goes on meaning what its keys say if and only if both worlds give the user the same access, or nothing is added |
| `AccessStores.AccessStore.ServeAll` | pkg/accesscontrol/access_store.go:50-72 | over every run of role changes, evictions and undisturbed lookups, each set returned is the access that bindings and roles give then, cached or not |
| `AccessStores.WrongHit` | pkg/accesscontrol/access_store.go:53-69 | after one disturbed lookup a user without bindings is given another's access |
| `AccessStores.MeansSame` | pkg/accesscontrol/access_store.go:61-69 | a set read in one world means the key of another if and only if both give the user the same access |
| `AccessStores.AccessStore.Evict` | pkg/accesscontrol/access_store.go:44-46 | the cache may drop any entry |
| `SchemaAccess.TrimToCluster` | pkg/schema/factory.go:69-78 | keeps exactly the accesses for all namespaces |
| `SchemaAccess.VerbAccess` | pkg/schema/factory.go:64-100 | the access lists per verb: found access, trimmed for cluster-scoped schemas, with the fallback for namespaces exactly if no verb has any |
| `SchemaAccess.SpecialisedGrants` | pkg/schema/factory.go:64-82 | for a namespaced schema the lists grant what the access set grants; for a cluster-scoped one what its part for all namespaces grants |
| `SchemaAccess.Granted` | pkg/accesscontrol/access_set.go:138-171 | an entry for each namespace with a grant, and for no other; its names are those granted, for a list also those that can be read |
| `RbacPartitions.IsPassthroughUnconstrained` | pkg/stores/proxy/rbac_store.go:163-203 | passes through if and only if all, or the request's namespace, is granted; otherwise one partition per namespace with a grant, holding exactly that grant |
| `RbacPartitions.IsPassthrough` | pkg/stores/proxy/rbac_store.go:135-161 | a constraint replaces a passthrough by whole namespaces, or filters the partitions |
| `RbacPartitions.SortByNamespace` | pkg/stores/proxy/rbac_store.go:90-92 | a sorted permutation |
| `RbacPartitions.OneOrder` | pkg/stores/proxy/rbac_store.go:90-93 | distinct namespaces have one sorted order |
| `RbacPartitions.All` | pkg/stores/proxy/rbac_store.go:66-97 | the partitions of a list or watch: for an id the namespace before its first slash and the name after it, one passthrough if and only if all of it is granted and nothing constrains it, or sorted; other verbs are refused |
| `ChunkedStore.ByNames` | pkg/stores/proxy/proxy_store.go:212-238 | lists the namespace and keeps the named objects in order, with the list's revision and continue token; nothing for the wildcard namespace |
| `ChunkedStore.ListPartitionChunk` | pkg/stores/proxy/rbac_store.go:111-121 | a passthrough partition lists the request's namespace, a whole one its own, and one with names goes by names |
| `ChunkedStore.ListerAsks` | pkg/stores/partition/store.go:49-70 | a list for a partition is a list of the store at the same token, revision and limit, and has its revision and next token |
| `ChunkedStore.ChainKept` | pkg/stores/proxy/proxy_store.go:212-238 | filtering chunk by chunk along the continue tokens is filtering the whole list |
| `ChunkedStore.ListerServes` | pkg/stores/partition/store.go:49-70 | the chunks that the lister gets for a partition add up to what the partition lists |
| `VisibleListing.CountAll` | pkg/stores/partition/store.go:98-100 | an object is listed by at most one of the partitions |
| `VisibleListing.ListsExactlyVisible` | pkg/stores/proxy/rbac_store.go:66-203 | the partitions list an object as often as it is stored if it is visible and in scope, and never otherwise |
| `VisibleListing.ConstraintReplacesNamespace` | pkg/stores/proxy/rbac_store.go:135-152 | for a namespace that is granted as a whole together with a constraint, the listing is right if and only if the constraint's other namespaces hold no object |
| `VisibleListing.ForeignObjectIsListed` | pkg/stores/proxy/rbac_store.go:135-152 | a request for one granted namespace, constrained to another, lists the other's object, which is neither visible nor in scope |
| `VisibleListing.ConstraintCommutes` | pkg/stores/proxy/rbac_store.go:135-161 | the constrained listing is the unconstrained one, filtered |
| `VisibleListing.PartitionOrder` | pkg/stores/proxy/rbac_store.go:86-93 | the order of the partitions is strictly increasing and independent of map order |
| `VisibleListing.ListsInCluster` | pkg/stores/proxy/rbac_store.go:135-203 | a cluster-scoped schema lists exactly what is granted for all namespaces, to requests without a namespace and with the empty one in the constraint, if any; nothing to others |
| `VisibleListing.ListsOwnNamespaces` | pkg/schema/factory.go:84-100 | a user without verb access to namespaces lists exactly those with an entry under get or list itself |
| `EndToEnd.UserFound` | pkg/accesscontrol/access_set.go:83-106 | an access is found if and only if a binding in its namespace has a rule that names it |
| `EndToEnd.VisibleByRules` | pkg/stores/proxy/rbac_store.go:163-203 | the partitions' visibility is the rule of visibility stated on bindings and rules |
| `EndToEnd.ProperlyBound` | pkg/accesscontrol/policy_rule_index.go:112-124 | no access is bound to the empty namespace |
| `EndToEnd.AllowedBinds` | pkg/accesscontrol/access_set.go:61-81 | a request for an object is allowed if and only if one of four bindings exists: for all namespaces or its own, by the wildcard name or its own |
| `EndToEnd.GrantedButInvisible` | pkg/stores/proxy/proxy_store.go:213-217 | an object that may be listed is not shown if and only if it is bound by name for all namespaces, in no other way, and cannot be read by name in its own; without lists in the schema, if and only if it cannot be read by name |
| `EndToEnd.VisibleButNotGranted` | pkg/accesscontrol/access_set.go:154-168 | an object is shown that may not be listed if and only if it can be read by name in its namespace and no binding lets it be listed |
| `EndToEnd.ListsAndGrantsDiffer` | pkg/stores/proxy/proxy_store.go:213-217 | a user for each of the two cases |
| `EndToEnd.PagesListPartitions` | pkg/stores/partition/store.go:82-100 | reading all pages is listing the partitions one after the other, whatever the schedules |
| `EndToEnd.PagesShowExactlyWhatRulesAllow` | pkg/stores/partition/store.go:72-105 | reading all pages of a namespaced schema shows each stored object as often as it is stored if bindings and rules let it be listed and it is in the request's namespace and constraint, and never otherwise, under every schedule |
| `EndToEnd.PagesShowClusterScoped` | pkg/stores/partition/store.go:72-105 | the same for a cluster-scoped schema, where only bindings for all namespaces matter; namespaces included if a binding gives the user a verb on them |
| `EndToEnd.PagesShowOwnNamespaces` | pkg/schema/factory.go:84-100 | the same for the fallback: exactly the namespaces in which a rule of a binding of the user or of its groups writes out get or list |
| `EndToEnd.ReadsFound` | pkg/accesscontrol/access_set.go:24-42 | a binding in a namespace lets the user get or list something there if and only if one of its rules writes out get, list or the wildcard verb |
| `EndToEnd.FallbackExactly` | pkg/schema/factory.go:84-100 | the fallback shows the stored namespaces in which the user may get or list something if and only if each of them with a wildcard-verb rule also has a rule that writes out get or list |
| `EndToEnd.AdminSeesNoNamespace` | pkg/accesscontrol/access_set.go:26-29 | a user who may do everything in one namespace is not shown it |
| `SchemaGraph.FindBaseType` | pkg/stores/schema/schema_store.go:67-72 | the loop over element types ends and finds the innermost type |
| `SchemaGraph.BaseTypeIsInnermost` | pkg/stores/schema/schema_store.go:67-72 | the base type is its own element type, and the element types on the way to it share it |
| `SchemaGraph.Filter.constructor` | pkg/stores/schema/schema_store.go:42-44 | nothing is included at first |
| `SchemaGraph.Filter.AddSchema` | pkg/stores/schema/schema_store.go:58-63 | the recursion ends; it includes the schema, and adds only visible schemas, each once and closed under references |
| `SchemaGraph.Filter.TraverseAndAdd` | pkg/stores/schema/schema_store.go:65-104 | everything the schema refers to is included afterwards |
| `SchemaGraph.Filter.AddFields` | pkg/stores/schema/schema_store.go:66-77 | so are the element types of its fields, |
| `SchemaGraph.Filter.AddActions` | pkg/stores/schema/schema_store.go:79-101 | and the inputs and outputs of its actions |
| `SchemaGraph.FilterSchemas` | pkg/stores/schema/schema_store.go:41-56 | for every map order the result lists each visible schema once and no other |
| `SchemaGraph.ClosedIsVisible` | pkg/stores/schema/schema_store.go:41-104 | a closed set with all roots holds everything that a path from a root reaches |
| `SchemaGraph.FilteredObjects` | pkg/stores/schema/schema_store.go:19-56 | the objects are exactly the published bodies of the visible schemas, with distinct IDs |
| `SchemaGraph.FilteredAttributes` | pkg/stores/schema/schema_store.go:19-27 | a published body is the schema with all of its attributes but access |
| `SchemaGraph.ExampleIsVisible` | pkg/stores/schema/schema_store.go:41-104 | one graph, written out: an array of maps and actions of both kinds bring their types with them, and a schema without methods that nothing refers to stays away |
| `SchemaEvents.SendSchemas` | pkg/resources/schemas/template.go:91-132 | the events turn the client's view of the old set into that of the new one if and only if no visible schema was skipped that was hidden before; each event is named for what happened; an ID gets one event if it is visible with a body that the old set does not have, or no longer visible, and none otherwise; without new schemas nothing is sent and the baseline stays |
| `SchemaEvents.ResentExactly` | pkg/resources/schemas/template.go:104-112 | a visible schema whose published body did not change is sent again if and only if the old set keeps its access attribute |
| `SchemaEvents.NothingChangedIsSent` | pkg/resources/schemas/template.go:104-112 | a refresh from a set to itself announces a schema with an access attribute |
| `SchemaEvents.DiffAt` | pkg/resources/schemas/template.go:99-129 | what the client holds under one ID after all events |
| `SchemaEvents.DiffExact` | pkg/resources/schemas/template.go:99-129 | the client's view is the new one if and only if no schema is revived |
| `SchemaEvents.UnchangedBody` | pkg/resources/schemas/template.go:102-112 | a schema skipped as unchanged has the published body it had |
| `SchemaEvents.ClientFollows` | pkg/resources/schemas/template.go:76-86 | over any sequence of refreshes without a revived schema the client's view stays current |
| `SchemaEvents.RevivedIsLost` | pkg/resources/schemas/template.go:104-112 | a type that a listed schema starts to refer to becomes visible without an event |
| `WatchSession.StepKeepsInv` | pkg/subscribe/watcher.go:24-173 | every step of the reader and of the streams keeps the table, the balance of streams and stops, and the wait group |
| `WatchSession.RunKeepsInv` | pkg/subscribe/watcher.go:24-173 | so does every run |
| `WatchSession.OneStreamPerKey` | pkg/subscribe/watcher.go:24-56 | each key has at most one stream whose cancel was not called, and the table holds exactly that one |
| `WatchSession.StopsMatchAdds` | pkg/subscribe/watcher.go:24-56 | for each key and in total, streams added equal stop events sent plus entries in the table |
| `WatchSession.EndsClean` | pkg/subscribe/watcher.go:145-173 | from the end of the wait on, every stream is finished and cancelled, and the table is empty |
| `WatchSession.NothingAfterClose` | pkg/subscribe/watcher.go:128-138 | after the close no step is possible, and so no send and no second close, but the end of the request |
| `WatchSession.NeverStuck` | pkg/subscribe/watcher.go:145-173 | a session in which no stream waits for the request always has a step towards its end, and keeps that freedom |
| `WatchSession.ClosesExactly` | pkg/subscribe/watcher.go:90-91 | while the request goes on, a session can be brought to its end if and only if no live stream is without a channel; once the request has ended it always can |
| `WatchSession.StuckExactly` | pkg/subscribe/watcher.go:145-146 | an open session is stuck if and only if its reader waits for streams that all lack a channel, and the request goes on |
| `WatchSession.IdleHangs` | pkg/subscribe/watcher.go:90-91 | subscribe to a type without a channel, then lose the connection: the session is stuck |
| `WatchSession.WhenItKillsAnother` | pkg/subscribe/watcher.go:24-53 | a deferred stop cancels another stream if and only if its own was cancelled and its key is in the table again |
| `WatchSession.ResubscriptionIsKilled` | pkg/subscribe/watcher.go:24-56 | subscribe, stop, subscribe: the end of the first stream stops the second |
| `WatchSession.StopCanComeFirst` | pkg/subscribe/watcher.go:40-83 | subscribe and stop before the stream begins: the client gets the stop before the start |
| `WatchSession.ClientIsTold` | pkg/subscribe/watcher.go:83-112 | over every run the data events for an ID and a selector are what the stores gave to the streams subscribed so, each once and in order; there is one start for each stream that began, without its namespace, and one error for each failure |
| `WatchSession.KeysDiffer` | pkg/subscribe/handler.go:27-29 | keys are equal only for equal subscriptions if types, namespaces and IDs hold no slash |
| `WatchSession.KeysCollide` | pkg/subscribe/handler.go:27-29 | an ID with a slash shares its key with another subscription |
| `WatchSession.WatchSession.constructor` | pkg/subscribe/watcher.go:117-126 | a new session is fresh |
| `WatchSession.WatchSession.StopSub` | pkg/subscribe/watcher.go:24-38 | cancels the stream of the key, sends the stop event and empties the entry |
| `WatchSession.WatchSession.AddSub` | pkg/subscribe/watcher.go:40-56 | enters a new stream and counts it in the wait group |
| `WatchSession.WatchSession.Read` | pkg/subscribe/watcher.go:148-171 | one turn of the read loop, up to the check of the table |
| `WatchSession.WatchSession.Leave` | pkg/subscribe/watcher.go:128-152 | the add after the check, and the end of the loop: cancel, wait, report, close |
| `WatchSession.WatchSession.StreamStep` | pkg/subscribe/watcher.go:47-115 | the steps of a stream's goroutine, with its deferred stop and wait group call in their order |
| `WatchSession.WatchSession.Run` | pkg/subscribe/watcher.go:128-173 | any interleaving on the mutable session is a run of the step system and keeps the invariant |
| `RefreshQueue.StepKeepsInv` | pkg/controllers/schema/schemas.go:68-175 | every step keeps the lock exclusive and every change announced |
| `RefreshQueue.ChangeIsAnnounced` | pkg/controllers/schema/schemas.go:68-144 | for a change that no discovery followed, a refresh has taken the flag and is about to read, or the flag is set and a refresh is on its way to look |
| `RefreshQueue.CurrentExactly` | pkg/controllers/schema/schemas.go:68-175 | for every run: the published schemas know of every change if and only if there was none, or some refresh read the cluster after the last change, and published |
| `RefreshQueue.NothingIsLost` | pkg/controllers/schema/schemas.go:68-175 | when all refreshes are done, a discovery began after every change, and it is published, or some discovery failed and the flag is set again |
| `RefreshQueue.OneDiscovery` | pkg/controllers/schema/schemas.go:133-136 | discoveries exclude each other and are published in order |
| `RefreshQueue.ComesToRest` | pkg/controllers/schema/schemas.go:68-175 | refreshes never block each other for good |
| `RefreshQueue.DiscoveriesAreAskedFor` | pkg/controllers/schema/schemas.go:68-144 | however many refreshes are queued, there are no more discoveries than changes and restored failures |
| `RefreshQueue.FailureWaitsForTheNextChange` | pkg/controllers/schema/schemas.go:73-76 | a failed refresh can leave a change unpublished with nothing at work |
| `RefreshQueue.Handler.constructor` | pkg/controllers/schema/schemas.go:46-61 | nothing is queued at first |
| `RefreshQueue.Handler.QueueRefresh` | pkg/controllers/schema/schemas.go:68-78 | stores the flag and starts a refresh |
| `RefreshQueue.Handler.NeedToSync` | pkg/controllers/schema/schemas.go:218-221 | takes the flag and clears it |
| `RefreshQueue.Handler.RefreshStep` | pkg/controllers/schema/schemas.go:71-175 | each action of a refresh on the mutable handler is a step of the step system |
| `TemplateLifecycle.Start` | pkg/schema/collection.go:117-127 | succeeds if and only if every start function does |
| `TemplateLifecycle.Collection.constructor` | pkg/schema/collection.go:54-67 | nothing runs at first |
| `TemplateLifecycle.Collection.StartStopTemplate` | pkg/schema/collection.go:129-154 | for every map order, what one reset does to each ID and to each context: kept, new, or cancelled once more |
| `TemplateLifecycle.ResetKeepsInv` | pkg/schema/collection.go:129-154 | such a reset keeps every context in order: running and never cancelled, or cancelled exactly once |
| `TemplateLifecycle.EveryContextAccounted` | pkg/schema/collection.go:84-154 | after every sequence of resets, a context was never cancelled if its ID runs in it, and exactly once if not |
| `TemplateLifecycle.NotRestarted` | pkg/schema/collection.go:129-133 | an ID present in every reset of a stretch keeps its context and gets no other |
| `TemplateLifecycle.OneContextPerAttempt` | pkg/schema/collection.go:139-145 | contexts are made for attempts to start, one each |
| `TemplateLifecycle.RunsExactly` | pkg/schema/collection.go:129-154 | an ID runs if and only if some reset found it absent and started it, and every reset since has it |
| `ReservedFields.OutAndBack` | pkg/stores/proxy/proxy_store.go:131-160 | an object sent out and read back is the same if and only if it used no underscored reserved name |
| `ReservedFields.InAndBack` | pkg/stores/proxy/proxy_store.go:131-160 | an object stored and read is the same if and only if the client set no reserved field |
| `ReservedFields.Document.constructor` | pkg/stores/proxy/proxy_store.go:438-440 | wraps the fields of an object |
| `ReservedFields.Document.MoveToUnderscore` | pkg/stores/proxy/proxy_store.go:146-160 | renames the reserved fields, which are the four of pkg/types/types.go:59-64, for every map order, and keeps the others |
| `ReservedFields.Document.MoveFromUnderscore` | pkg/stores/proxy/proxy_store.go:131-144 | renames them back, drops those the client set, for every map order, and keeps the others |

## Left out

- Errors of the lister and cancellation of a list request: `waitForTurn` also returns when the context is done, and then no claim about order is made.
- The encoding of tokens (base64, section 4 of RFC 4648, around JSON) and the digest: a token is a record, and the digest is taken as injective.
- The semaphore, locks and channels themselves: each acquisition, send and close is one step. Sends on a full channel that block while a lock is held are delays of a step.
- Two adjacent actions of one goroutine that no other can tell apart are one step (checks of `p.state` and the send that follows; the read of `capacity` and the end of the feeder's loop).
- CacheKeys.EqualKeysEqualAccess: only soundness of the cache is claimed; CacheKeys.KeyFollowsOrder says when two orders of the groups share a key.
- AccessStores.AccessStore.AccessFor: the key and the content are one snapshot each; changes within one of the two readings are not told apart.
- The expiry of cache entries: any entry may be evicted at any time.
- `Lookup` and the operations on single objects, `Watch` on partitions, the conversion of tables to objects, and the clients they call.
- `Collection.Schemas` with its cache under concurrent resets, and the append to the methods of a shared schema at `pkg/schema/factory.go:97`: the compute-then-add is not atomic.
- Methods of a user's schema (get, put, post by verb) and `applyTemplates`: assignments without a property beyond their text.
- Two notifiers that share one result channel in `pkg/resources/schemas/template.go:66-86`: each keeps its own baseline; one loop is modelled.
- SchemaEvents.SendSchemas: the comparison is equality of schemas; how deep equality treats nil and empty collections, and the mapper that it drops, are not modelled.
- WatchSession.Run: the resource version of a subscription, what a store's events say, `Close` (which cancels and waits from outside) and the drain of a slow stream are not modelled; a dropped event is a stream that returns.
- WatchSession.ClosesExactly: that a store closes its channel once the context of the stream has ended is the store's part; a stream with a channel may return at any time.
- BindingIndex.RoleBindingsAreIgnored: registrations that fail for cluster role bindings too leave no bindings at all; the program reports neither failure.
- EndToEnd.PagesShowClusterScoped: a request that combines a namespace with a constraint that names the empty one is left out, as its namespace is replaced.
- EndToEnd.PagesShowExactlyWhatRulesAllow: a request that combines a namespace which is granted as a whole with a constraint is left to VisibleListing.ConstraintReplacesNamespace.
- RefreshQueue.NothingIsLost: the filtering of discovered schemas in `refreshAll` and the fetch of columns are part of the discovery.
- Writers, HTML, compression, URL building, headers, browser detection, authentication, the proxy handler and the command line.
