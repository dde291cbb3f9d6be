# Model of NeoDB in Dafny

NeoDB is a sharding proxy in front of MySQL. This project models the parts of it whose correctness is
not visible from one function, and proves properties of them for all inputs, all schedules and all runs.

- `XaProtocol.dfy`, `XaSafety.dfy`, `XaRuns.dfy`: two-phase commit as steps of the coordinator, the XA branches of the
  backends, readers under the commit lock, the recovery worker and crashes. The rules of the participants
  are those of chapter 6 (State Tables) of X/Open CAE Specification C193, "The XA Specification". The
  protocol is concurrent, so it is a state machine over values; one run is any sequence of enabled steps.
- `RecoveryLog.dfy`: the log of decisions that could not be carried out, in memory and on disk.
- `JoinSpec.dfy`, `JoinPool.dfy`, `MergeJoin.dfy`, `JoinEngine.dfy`: cross-shard joins. `JoinSpec.Join` is the
  definition, row by row; sort-merge join with its worker pool, Cartesian product and nested loop are proved
  against it.
- `SqlExpr.dfy`, `Rewriting.dfy`: the rewriting of WHERE clauses under three-valued logic.
- `Decimal.dfy`, `HashKeys.dfy`, `HashMap.dfy`, `HashUniform.dfy`, `Router.dfy`, `Routing.dfy`: what a key
  literal is hashed as, the slot map of a table, its layout, and routing by the WHERE clause.
- `Storage.dfy`, `ShardedTable.dfy`: INSERT, UPDATE and DELETE over partitions refine one table.
- `Colocated.dfy`, `MergedRoute.dfy`, `MergedWhere.dfy`: joins that are pushed down to the shards, their routing,
  and the conditions of the merged nodes.
- `OrderLimit.dfy`: ORDER BY with LIMIT on the shards and again in the proxy.
- `AggregatePlan.dfy`, `Aggregate.dfy`, `Grouping.dfy`, `AggregateOperator.dfy`, `AggregateResult.dfy`,
  `TwoPhase.dfy`: aggregates in two phases.
- `PlanTree.dfy`, `PlanState.dfy`, `PlanBuilder.dfy`, `PlanExec.dfy`, `PlanRun.dfy`, `PlanFilter.dfy`: the plan
  tree of a nested-loop join, its variables, its execution, its conditions and its select list.
  `PlanExec.Meaning` says what a tree of joins stands for without variables and column numbers.
- `StreamFetch.dfy`: several cursors, one channel, one consumer.
- `Prelude.dfy`, `Sorting.dfy`, `Seqs.dfy`, `Rows.dfy`: shared definitions.

What is taken from outside the model:

- Comparing two column values gives a total preorder with NULL least; values that compare equal may differ
  as texts. Numbers are reals.
- The jump hash is any function into the slots of what GetIndex passes to it: a number for integers and
  floats, the text for strings. Which number a float gives is any function of its text.
- The literals that the statements on a table write for its shard key, and only these, must share their slots
  when SQL takes them as equal. `Routing.CongruentExactly` says when they do, and `Routing.PlainIntsCongruent`
  and `Routing.TextsCongruent` give two sets of literals that do. Routing itself assumes nothing: it promises
  to find the rows whose keys are hashed like the equal literals of the clause.
- Sorting yields some sorted permutation, with ties in any order. Shards deliver their rows in any order.
- A prepared XA branch survives disconnects and an unprepared one is rolled back; a command that was reported
  as failed may still be executed later.
- What backends answer, whether a cursor yields a row, ends or breaks, whether a client takes a message, and
  which step a scheduler picks next are inputs or free choices, so the theorems hold for all of them.
- Expressions that the planner does not look into have any value on a row.

Where a property fails for the code, the code is modelled as it is, with the exact condition and an input:

- Counting slots does not ensure that slot 0 is covered: `HashMap.CoversAllSlots`, `HashMap.SlotZeroCanBeMissing`.
- Equal literals of different type or with a leading zero may be hashed differently, so that a lookup misses a
  row, and integers from 2^63 on are refused: `Routing.EqualityRoutesExactly`, `HashKeys.ReadsAsWritten`,
  `Routing.EqualLiteralsCanMiss`, `HashKeys.TooLargeIsRefused`.
- Offset + limit beyond 64 bits: `OrderLimit.RewrittenFits`, `OrderLimit.OverflowingLimit`.
- GROUP BY with aggregates over no rows: `TwoPhase.Execute`, `TwoPhase.GroupsOfNothing`.
- A stream fetch whose cursor breaks succeeds with fewer rows than the backend had: `StreamFetch.CompleteExactly`,
  `StreamFetch.FetchAll`, `StreamFetch.CutFetch`.
- Merging the right node of a left join puts its conditions into the WHERE clause, where they drop padded rows:
  `MergedWhere.MergeKeepsExactly`, `MergedWhere.LeftJoinLosesRow`.

An expression of the select list over several leaves is not always sent to a leaf that it mentions
(`planner/builder/join_node.go:640-674`): `PlanState.DestIsLastOfSpan` says where it goes and
`PlanState.SentToUnmentioned` gives an example. Scoping needs only that no mentioned leaf comes later, which is
`PlanState.DestIsLast`.

## Model

| member | source | states |
|---|---|---|
| `XaSafety.AtomicCommitment` | backend/txn.go:287-417 | In every schedule of coordinator, backends, readers, recovery and crashes no branch is committed while another one of the same transaction is rolled back. |
| `XaSafety.CommitOnlyAfterAllPrepared` | backend/xa.go:211-263 | Every XA COMMIT on the wire, of the coordinator or of recovery, comes after every participant acknowledged XA PREPARE, and no run sends both XA COMMIT and XA ROLLBACK. |
| `XaSafety.CommitPhaseCommitsAll` | backend/xa.go:227-245 | A COMMIT phase whose goroutines all report success has committed every branch. |
| `XaSafety.EndSucceedsOnce` | backend/xa.go:195-209 | In every run XA END succeeds on all participants at most once, which makes the COMMIT and ROLLBACK phases exclusive however often the caller repeats Commit and Rollback. |
| `XaSafety.OutcomeIsFinal` | backend/txn.go:287-417 | A branch that is committed or rolled back keeps that outcome in every continuation of the run. |
| `XaSafety.CommitIsNeverUndone` | backend/txn.go:314-361 | After one branch is committed, all branches are prepared or committed in every continuation, also when the caller asks for a rollback or the proxy crashes. |
| `XaSafety.ReadersSeeAllOrNothing` | backend/txn.go:436-463 | A read under the shared commit lock that began before any COMMIT phase failed sees the write on all participants it asks or on none. |
| `XaSafety.RecoveryResolves` | backend/xacheck.go:185-266 | An entry that recovery removes as resolved leaves no branch in doubt: all are committed for a commit entry, none is prepared or committed for a rollback entry. |
| `XaSafety.RetriesAreBounded` | backend/xa.go:79-126 | A goroutine makes at most ten attempts in the COMMIT and ROLLBACK phases and one attempt in the other phases. |
| `XaRuns.CommitIsReached` | backend/txn.go:287-361 | For every set of backends some run reaches a COMMIT phase that succeeded on all of them, so the theorems about it are not empty. |
| `XaRuns.ResolutionIsReached` | backend/xacheck.go:185-266 | For every set of backends and any one of them, some run has its COMMIT phase fail on that backend and succeed on the others, logs the decision, and has recovery find the branch, resolve it and commit everywhere. |
| `XaRuns.PhaseSucceeds` | backend/xa.go:75-127 | A started phase whose command all backends can execute can succeed on any of them, one after the other. |
| `XaRuns.ScanAll` | backend/xacheck.go:185-230 | Scanning all backends finds exactly the one branch that is still prepared. |
| `XaSafety.EveryRunKeepsInv` | backend/xa.go:68-172 | The invariant behind the theorems (one decision, prepared before commit, views of readers, contents of the log, order of messages) holds after every schedule. |
| `XaSafety.StepKeeps` | backend/xa.go:68-172 | Every single step of coordinator, backend, reader, recovery or crash keeps the invariant. |
| `XaSafety.WorkerKeeps` | backend/xa.go:75-127 | Fetching a connection, sending a command, and a reply, an error or a lost reply of one goroutine keep the invariant. |
| `XaSafety.PhaseReturnsKeeps` | backend/txn.go:287-361 | The decision of Commit, Rollback and RollbackPhaseOne after a phase returned keeps the invariant. |
| `XaSafety.TakeLockKeeps` | backend/xa.go:138-171 | Entering the COMMIT or ROLLBACK phase under the exclusive commit lock keeps the invariant. |
| `XaSafety.ServerKeeps` | backend/xa.go:75-127 | A backend that executes a command late, executes it without its reply being heard, or drops an unprepared branch on disconnect keeps the invariant. |
| `XaSafety.ReadKeeps` | backend/txnmgr.go:90-107 | A reader that takes, uses and releases the shared commit lock keeps the invariant. |
| `XaSafety.LogKeeps` | backend/xacheck.go:156-177 | Adding the failed decision to the recovery log, in memory and then on disk, keeps the invariant. |
| `XaSafety.RecoveryKeeps` | backend/xacheck.go:185-293 | Every step of a recovery round (scan, resend, answer, remove, flush) keeps the invariant. |
| `XaSafety.CrashKeeps` | backend/xacheck.go:329-361 | A crash at any moment, followed by reloading the log, keeps the invariant. |
| `RecoveryLog.XaCheck.constructor` | backend/xacheck.go:66-76 | A new log has nothing pending. |
| `RecoveryLog.XaCheck.WriteXaCommitErrLog` | backend/xacheck.go:123-177 | A decision is accepted exactly when none is pending for the transaction; it is then pending in memory and on disk, and a pending decision is never overwritten. |
| `RecoveryLog.XaCheck.Flush` | backend/xacheck.go:137-153 | The file lists every pending entry once, in whatever order the map is walked. |
| `RecoveryLog.SendDecision` | backend/xacheck.go:202-247 | The retry counts as resolved exactly when some backend has the transaction prepared and all of these carried the decision out. |
| `RecoveryLog.Scan` | backend/xacheck.go:186-221 | A retry fails without effect exactly when there is no backend, no session, or a backend that cannot be scanned. |
| `RecoveryLog.XaCheck.CommitRetryBackends` | backend/xacheck.go:185-266 | After a retry without error the decision is resolved, or given up and appended to the times-out file when no retries are left, or has one retry less; after an error nothing changed. |
| `RecoveryLog.XaCheck.GiveUp` | backend/xacheck.go:248-261 | A decision that is given up is appended, with its outcome, to the times-out file; nothing written there is lost. |
| `RecoveryLog.XaCheck.CountRetry` | backend/xacheck.go:262-264 | A retry is taken in memory; memory never has more retries left than the disk. |
| `RecoveryLog.XaCheck.Remove` | backend/xacheck.go:282-289 | A decision leaves the log only when resolved or given up, and the file then agrees with the memory. |
| `RecoveryLog.XaCheck.RetryOne` | backend/xacheck.go:277-291 | One pass of the loop leaves the other decisions alone and never overwrites the one at hand. |
| `RecoveryLog.XaCheck.XaCommitsRetry` | backend/xacheck.go:270-304 | After a round without error every pending decision has left the log or has one retry less; accepted decisions stay on disk, resolved or given up throughout, in any order of the map. |
| `RecoveryLog.XaCheck.LoadXaCommitErrLogs` | backend/xacheck.go:329-361 | Reading the file back gives exactly what was last flushed; no entry is met twice. |
| `RecoveryLog.ReadBack` | backend/xacheck.go:343-358 | Reading the records of a file gives back the map that it lists, whatever their order. |
| `RecoveryLog.XaCheck.Restart` | backend/xacheck.go:329-361 | A crash between critical sections loses no pending decision and changes none; only counted retries are given back. |
| `RecoveryLog.XaCheck.Recover` | backend/xacheck.go:270-316 | A decision with t retries left is gone from the log after t + 1 rounds without errors. |
| `JoinPool.ConcatLeftAndNil` | executor/engine/merge_join.go:251-262 | Pads each left row with NULLs when the join asks for it, with an error exactly when the row limit is exceeded. |
| `JoinPool.CheckLeft` | executor/engine/merge_join.go:147-154 | The left row is accepted exactly when all its temporary columns are true. |
| `JoinPool.CheckRightNull` | executor/engine/merge_join.go:206-212 | The pair is kept exactly when all temporary columns of the right row are NULL. |
| `JoinPool.CheckFilters` | executor/engine/merge_join.go:158-199 | The comparison filters of the executor hold exactly when the comparisons are true in SQL; NULL only ever satisfies <=>. |
| `JoinPool.ConcatLeftAndRight` | executor/engine/merge_join.go:137-249 | For every interleaving of the workers the pool appends, as a bag, the join of the two groups, with at most four workers active, and errs exactly when the rows exceed the limit. |
| `JoinPool.StepPool` | executor/engine/common.go:20-47 | Any step of any worker keeps the bag of rows, the worker bound and the error condition. |
| `JoinPool.StepTask` | executor/engine/merge_join.go:141-240 | One step of a worker appends at most one row, the next of its share of the join, raises the error exactly when the limit is passed, appends nothing after an error, and makes progress. |
| `MergeJoin.FetchSameKeyRows` | executor/engine/merge_join.go:101-124 | Returns the maximal run of rows with equal keys from an index on. |
| `MergeJoin.KeysEqual` | executor/engine/merge_join.go:126-134 | Rows have equal keys exactly when the comparison by all keys is 0. |
| `MergeJoin.CompareGroups` | executor/engine/merge_join.go:64-75 | The comparison loop with its early stop at a common NULL key decides whether the groups match, cannot match, or which one is behind. |
| `MergeJoin.JoinGroups` | executor/engine/merge_join.go:64-95 | Handles the current groups, also the pair that shares a NULL key, and never leaves behind a row that could still match. |
| `MergeJoin.MergeSorted` | executor/engine/merge_join.go:54-98 | Merging sorted inputs gives, as a bag, the join defined row by row, for inner and left joins, any keys (also none), NULLs and extra filters; it errs exactly when that join exceeds the limit. |
| `JoinEngine.SortMergeJoin` | executor/engine/merge_join.go:29-51 | Sort-merge join of unsorted inputs equals the row-by-row definition as a bag, whatever order sorting leaves ties in. |
| `JoinEngine.CartesianProduct` | executor/engine/join_engine.go:231-243 | For an inner join without keys and filters the product is the join of the definition, with the same error condition. |
| `JoinEngine.AppendPairs` | executor/engine/join_engine.go:128-145 | The answers for one left row are appended as the definition pairs them, up to the row limit. |
| `JoinEngine.NestedLoopRow` | executor/engine/join_engine.go:109-152 | One left row gives its matching right rows or its padding, as the definition says. |
| `JoinEngine.NestedLoop` | executor/engine/join_engine.go:97-152 | With a right side that answers the ON condition, the nested loop gives the join of the definition and errs exactly when it exceeds the limit. |
| `JoinEngine.StrategiesAgree` | executor/engine/join_engine.go:47-94 | Sort-merge join and nested loop, run on the same rows, fail together and otherwise return equal bags; so does the Cartesian product for an inner join without keys and filters. |
| `JoinEngine.Execute` | executor/engine/join_engine.go:47-94 | Whatever the strategy, executing a join node gives the join of the definition; the shortcuts for an empty side are included. |
| `JoinSpec.JoinPermutes` | executor/engine/merge_join.go:137-249 | The join of the definition, as a bag, does not depend on the order in which shards deliver rows. |
| `JoinSpec.JoinIsLocal` | executor/engine/merge_join.go:54-98 | Right rows that match no left row at hand can be left out of a join. |
| `Rows.KeyLeIsTotalPreorder` | executor/engine/merge_join.go:33-43 | The comparison by key columns orders all rows, NULL first. |
| `Rewriting.SplitAndKeepsMeaning` | planner/builder/expr.go:179-193 | The conjunction of the pieces has the three-valued truth of the expression on every row. |
| `Rewriting.SkipKeepsMeaning` | planner/builder/expr.go:197-202 | Dropping parentheses keeps the truth value. |
| `Rewriting.SplitAndOver` | planner/builder/expr.go:179-193 | The pieces have only columns and literals of the expression. |
| `Rewriting.InMap.Add` | planner/builder/expr.go:224-251 | A literal joins the list of its column; columns of the map stay pairwise different and the map means one more alternative. |
| `Rewriting.InMap.SplitOr` | planner/builder/expr.go:206-241 | The map and the remaining conditions together mean the disjunction that was split. |
| `Rewriting.RebuildConditions` | planner/builder/expr.go:254-276 | The rebuilt disjunction means any of the conditions, and there is none exactly when there was no condition. |
| `Rewriting.RebuildEntries` | planner/builder/expr.go:277-285 | The IN lists are added to the disjunction in any order with the same truth value on every row. |
| `Rewriting.ConvertOrToIn` | planner/builder/expr.go:265-286 | Turning equalities of a disjunction into IN lists keeps the truth value on every row, in any order of the map, and brings in no column, literal or equality of its own. |
| `Rewriting.Classify` | planner/builder/expr.go:76-120 | A condition keeps its meaning when a literal is swapped to the right; recorded literals are exactly those that decide the condition. |
| `Rewriting.ParseFilter` | planner/builder/expr.go:41-112 | One condition keeps its meaning through rewriting and classification; it is refused only for a column of an unknown table or a subquery. |
| `Rewriting.ParseWhere` | planner/builder/expr.go:36-124 | Join conditions and filters together mean the clause on every row; recorded literals are literals that the clause compares the column with, and the clause is refused only for a column of an unknown table or a subquery. |
| `Decimal.SegmentRoundTrip` | router/compute.go:91-95 | A printed slot range reads back as the same range. |
| `HashUniform.NamesDiffer` | router/compute.go:89-93 | Two partitions of a table never get the same name, also beyond four digits. |
| `HashUniform.LayShard` | router/compute.go:78-98 | The partitions of one backend are consecutive and take up its share of the slots. |
| `HashUniform.LayShards` | router/compute.go:77-99 | All backends get equally many partitions, every one of width at least the block and less than twice the block plus the number of backends, and together they tile the slots; there is none exactly when a block does not fit the share of a backend. |
| `HashUniform.LayAll` | router/compute.go:79-99 | With the given shares the ranges are consecutive over all backends and the last one ends at the last slot. |
| `HashUniform.Layout` | router/compute.go:29-101 | The layout fails exactly for the listed reasons, one of them a block of no slots by which the code divides; otherwise the partitions are consecutive ranges from slot 0 on, of width at least blocks and below 2*blocks + backends, equally many on each backend in sorted order, tile all slots when a block fits a share, and Build accepts them. |
| `HashUniform.TilingIsAccepted` | router/hash.go:77-124 | Every tiling of the slots by printed ranges is accepted by Build. |
| `HashMap.Hash.AddSegment` | router/hash.go:96-116 | A segment is refused exactly when it overlaps an earlier one; otherwise exactly its slots are added. |
| `HashMap.Hash.Build` | router/hash.go:77-124 | A configuration is accepted exactly when its texts parse, its ranges are disjoint and their widths add up to the number of slots; the map then sends each covered slot to its segment and the segments are sorted by start. |
| `HashMap.CoversAllSlots` | router/hash.go:119-121 | An accepted map covers exactly the slots 0 to slots - 1 if and only if no segment ends beyond slots. |
| `HashMap.SlotZeroCanBeMissing` | router/hash.go:119-121 | Counting slots alone does not ensure that slot 0 is covered. |
| `HashMap.CoveredOnce` | router/hash.go:96-121 | In an accepted map every slot from 0 to slots - 1 is in exactly one segment if and only if no segment ends beyond slots. |
| `HashMap.Hash.GetSegment` | router/hash.go:193-198 | A slot has a segment exactly when it is in range. |
| `HashKeys.ReadsAsWritten` | router/hash.go:168-173 | An unsigned integer literal is hashed as the number that it stands for in SQL if and only if that is below 2^63 and the literal has no leading zero or is below 8: ParseInt with base 0 and 64 bits refuses larger ones and reads a leading zero as octal. |
| `HashKeys.IntReadsAsWritten` | router/hash.go:168-173 | Digits with or without a minus sign are parsed as the integer they stand for if and only if it fits 64 bits and no leading zero makes them octal. |
| `HashKeys.UintReadsAsWritten` | router/hash.go:168-173 | Digits of any length are read as they are written if and only if they have no leading zero or are below 8. |
| `HashKeys.TooLargeIsRefused` | router/hash.go:168-173 | The literal 9223372036854775808, a valid unsigned key in SQL, is refused. |
| `HashKeys.OctalIsLess` | router/hash.go:168-173 | Digits read in base 8 give less than in base 10 unless the number is below 8. |
| `HashKeys.IntParses` | router/hash.go:168-173 | Every 64-bit integer, printed in decimal, is parsed back to itself. |
| `HashKeys.PlainIntsAgree` | router/hash.go:164-186 | Integers as a client prints them are hashed alike when SQL takes them as equal. |
| `HashKeys.NumberAndString` | router/hash.go:167-184 | The literals 1 and "1", equal in SQL, are hashed as a number and as a text. |
| `HashKeys.OctalAndDecimal` | router/hash.go:168-173 | The literals 010 and 10, equal in SQL, are hashed as 8 and as 10. |
| `Router.GetSegments` | router/router.go:361-390 | The segments of a list of slots in the order of the slots, each once, or all segments for the empty list; an error exactly when a slot has none. |
| `Router.PickedExactly` | router/router.go:361-390 | A segment is among those returned for a list of slots if and only if it is the segment of one of them. |
| `Router.IndexHasSegment` | router/hash.go:136-156 | A key that hashes has an owning segment, and it is one of the table. |
| `Routing.LookupPiece` | planner/builder/expr.go:136-165 | A condition on the shard key gives segments that hold every row on which it can be true; an equality gives the one owner of its literal, an IN list of literals only owners of its literals; the only failure is a literal without a slot. |
| `Routing.IndexesOf` | planner/builder/expr.go:150-161 | The slots of an IN list, in order; none exactly when a member is met that is no literal; an error only for a literal without a slot. |
| `Routing.LookupFromWhere` | planner/builder/expr.go:127-169 | No row that satisfies the WHERE clause lives outside the returned segments, provided its key is hashed like the equal literals that the clause compares it with; none is returned twice; without WHERE all segments are returned, an equality on the key returns its owner, and the only failure is a literal of the clause without a slot. |
| `Routing.EqualityRoutesExactly` | router/hash.go:136-186 | A row inserted under one literal is found by comparing the key with an equal literal, whatever the jump hash, if and only if the type switch of GetIndex hashes both as the same number or text. |
| `Routing.EqualLiteralsCanMiss` | router/hash.go:164-186 | On any map with two segments some jump hash makes k = "1" miss a row inserted under 1, and k = 10 miss one inserted under 010. |
| `Routing.SameSlotExactly` | router/hash.go:164-186 | Two literals share their slot under every jump hash if and only if they are hashed as the same number or text. |
| `Routing.CongruentExactly` | router/hash.go:164-186 | For a set of key literals, equal ones share their slots under every jump hash if and only if equal ones are hashed as the same number or text. |
| `Routing.PlainIntsCongruent` | router/hash.go:164-186 | Integers as clients print them meet what routing needs, under any jump hash. |
| `Routing.TextsCongruent` | router/hash.go:181-182 | So do strings under a collation that tells different texts apart. |
| `Routing.CongruentAgrees` | planner/builder/expr.go:127-169 | When equal key literals share their slots, no key is excluded from what routing promises. |
| `Routing.MergeNode.PushFilter` | planner/builder/merge_node.go:92-107 | The slots of the literals are recorded, in order, exactly when the condition restricts the shard key; it fails exactly when one of them has no slot; recorded slots always belong to a condition of the query. |
| `Routing.FetchIndexes` | planner/builder/common.go:59-68 | The slots of all literals are appended in order, exactly when each has one. |
| `Routing.PushFilters` | planner/builder/plan_node.go:96-117 | After all conditions are pushed the query holds them all, in order; pushing fails only for a literal of the clause without a slot. |
| `Routing.MergeNode.CalcRoute` | planner/builder/merge_node.go:145-175 | Never fails; the query is sent to every segment that can hold a row of its result, and only to segments of recorded slots, or to all when none was recorded. |
| `Routing.RouteSelect` | planner/builder/plan_node.go:96-117 | The path of a SELECT through parsing, pushing and routing misses no row for any boolean WHERE clause, goes to the one owner for an equality on the key, and fails only for an unknown column, a subquery or a literal without a slot. |
| `Routing.InRoutes` | planner/builder/expr.go:146-164 | An IN list of literals is answered by the owners of the literals. |
| `Storage.IsUpdateShardKey` | planner/common.go:35-44 | The guard fires exactly when some assignment is to the shard key, compared without case. |
| `Storage.FindKeyColumn` | planner/insert_plan.go:127-137 | The first column that is the shard key, compared without case, or -1. |
| `Storage.FindSegment` | planner/insert_plan.go:148-162 | A row of an INSERT has a segment exactly when its key is present, a literal and hashable; it is the owner of the key. |
| `Storage.GroupRows` | planner/insert_plan.go:144-174 | Each row is in exactly one group, that of the partition owning its key. |
| `Storage.SortGroups` | planner/insert_plan.go:176-194 | The queries come in strictly increasing order of the partition table and hold each row once. |
| `Storage.BuildInsert` | planner/insert_plan.go:109-195 | The plan exists exactly when the key column is listed and every row has an owner; it then distributes the rows to their owners, each once. |
| `Storage.AssignedKeepsKey` | planner/update_plan.go:99-102 | Assignments that pass the guard leave the key of a row as it is. |
| `Storage.GatherMaps` | planner/update_plan.go:108-120 | A change made row by row in every partition is that change made in the whole table. |
| `ShardedTables.AssigningKeyMisplaces` | planner/update_plan.go:99-102 | After an update of the shard key the row would be in the partition of its new key if and only if that partition owns the new key too. |
| `ShardedTables.GuardIsNeeded` | planner/update_plan.go:99-102 | With two keys of different partitions an update of the shard key would leave a row where its new key is not looked up, which is why it is refused. |
| `ShardedTables.NothingSelected` | planner/builder/expr.go:127-169 | Where an UPDATE or DELETE is not sent it would have changed nothing. |
| `ShardedTables.ShardedTable.constructor` | router/hash.go:77-124 | Empty partitions hold the empty table. |
| `ShardedTables.ShardedTable.Insert` | planner/insert_plan.go:68-199 | An INSERT is accepted exactly when the key column is listed and every row has an owner; it then adds its rows to the table that the partitions stand for and keeps every row in the partition owning its key; a refused one changes nothing. |
| `ShardedTables.ShardedTable.Update` | planner/update_plan.go:80-122 | An accepted UPDATE acts as on one table and moves no row; it is refused without WHERE, on the shard key and with a subquery, and otherwise only for a literal without a slot. |
| `ShardedTables.ShardedTable.Delete` | planner/delete_plan.go:85-144 | An accepted DELETE acts as on one table; it is refused only for a subquery or a literal without a slot. |
| `ShardedTables.ShardedTable.RunOn` | planner/delete_plan.go:126-142 | Running a routed statement once in each returned partition is running it on the whole table. |
| `ShardedTables.ShardedTable.Execute` | planner/insert_plan.go:68-199 | Any statement acts as on one table or changes nothing. |
| `ShardedTables.ShardedTable.Run` | planner/update_plan.go:80-122 | After any sequence of statements whose key literals are hashed alike when equal, the union of the partitions is, as a bag, one table given the accepted ones, and every row sits in the partition owning its key. |
| `Colocated.IsSameShard` | planner/builder/from.go:279-300 | Accepts exactly joins on the two shard keys of tables whose configurations agree, entry by entry, on ranges and backends. |
| `Colocated.BuildPartition` | router/hash.go:65-124 | A partition map exists exactly for accepted configurations. |
| `Colocated.BuiltIsValid` | router/hash.go:77-124 | A built map whose ends stay within the slots gives routing all it relies on. |
| `Colocated.SameMap` | router/hash.go:77-124 | Maps built from agreeing configurations have the same number of slots and, position by position in start order, the same ranges and backends, although slots are never compared. |
| `Colocated.MatchesMeet` | planner/builder/from.go:219-224 | Rows on which any ON condition that implies the equality of the shard keys is true are in partitions at the same position. |
| `Colocated.PushedDownJoin` | planner/builder/from.go:213-226 | For inner and left joins and any ON condition that implies the equality of the shard keys, joining partition by partition gives the join of the two tables, and each pair of partitions is on one backend. |
| `Colocated.ConjunctImpliesKeys` | planner/builder/from.go:213-226 | An ON clause implies the equality that is one of its conjuncts, whatever the others are, in three-valued logic. |
| `Colocated.AnswersStay` | planner/builder/from.go:241-275 | The rows of a pushed-down join that keep the left key are still at the position of that key, so a third table can be merged in. |
| `Colocated.NodeAnswers` | executor/engine/merge_join.go:137-262 | A join node of the proxy, run by a backend, gives the join of the definition. |
| `Colocated.PushedDownAgrees` | planner/builder/from.go:213-226 | A join on the shard keys gives the same rows pushed down as joined in the proxy. |
| `MergedRoute.SlotPosition` | planner/builder/merge_node.go:162-165 | A slot has its segment at the same position of both tables of a pushed-down join. |
| `MergedRoute.PickedAlign` | planner/builder/merge_node.go:162-165 | The segments that GetSegments returns for any recorded slots stand at the same positions of both tables, in the same order. |
| `MergedRoute.MergedNode.constructor` | planner/builder/merge_node.go:60-69 | A node without conditions records no slot. |
| `MergedRoute.MergedNode.PushFilter` | planner/builder/merge_node.go:92-107 | A condition on the shard key of either table adds the slots of its literals, any other one adds none; it fails exactly when a literal has no slot. |
| `MergedRoute.MergedNode.CalcRoute` | planner/builder/merge_node.go:145-175 | With recorded slots both tables are asked at the same positions, which are exactly those of the slots, each once; without slots at all positions. The two segments of a query are on one backend. |
| `MergedRoute.BuildQueries` | planner/builder/merge_node.go:313-327 | One query for each segment of the first table, with the segment of the other table at the same index. |
| `MergedRoute.PickedJoin` | planner/builder/merge_node.go:313-327 | The queries at some positions return the rows of the whole join when those at the other positions would return nothing. |
| `MergedRoute.FilterDemands` | planner/builder/merge_node.go:92-107 | A condition of the WHERE clause on the shard key of one table makes every result row, padded ones included, have one of its literals in that key. |
| `MergedRoute.MergedRouteIsExact` | planner/builder/merge_node.go:145-175 | No row of the join is missed and none is returned twice: for inner and left joins the queries at the positions of the recorded slots return, as a bag, the join of the two tables, whichever of the two keys was restricted. |
| `MergedRoute.RouteJoin` | planner/builder/merge_node.go:92-175 | Pushing the conditions of a WHERE clause and routing the node gives queries that return exactly the rows of the join, or fails for a literal without slot. |
| `MergedWhere.MovedWhere` | planner/builder/from.go:263-265 | Moving the conditions of the right node to the WHERE clause of the merged query keeps the result on given tables if and only if every left row that is padded next to the filtered right side is padded in the merged query, too; otherwise rows are lost. |
| `MergedWhere.MergeKeepsExactly` | planner/builder/from.go:263-265 | It keeps the result on all tables if and only if the join is not a left join that pads some row while the conditions reject a missing row or a partner of it. |
| `MergedWhere.LeftJoinLosesRow` | planner/builder/from.go:193-206 | For a query a LEFT JOIN (b JOIN c ON .. AND b.x = 1) ON .. the merged query loses the row of a that has no partner. |
| `OrderLimit.OrderLeIsTotalPreorder` | executor/engine/operator/orderby_operator.go:47-80 | The ORDER BY comparison, with mixed directions, orders all rows. |
| `OrderLimit.BuildLimit` | planner/builder/limit_plan.go:76-104 | Literals beyond 64 bits are refused; the count sent to the shards is offset + limit exactly when that sum fits 64 bits, and negative otherwise. |
| `OrderLimit.RewrittenFits` | planner/builder/limit_plan.go:85-102 | The count for the shards is offset + limit if and only if the sum fits 64 bits, and negative otherwise. |
| `OrderLimit.OverflowingLimit` | planner/builder/limit_plan.go:85-102 | Offset 9223372036854775807 with limit 1 asks the shards for -9223372036854775808 rows. |
| `OrderLimit.LimitRows` | vendor/github.com/sealdb/mysqlstack/sqlparser/depends/sqltypes/limit.go:11-22 | The page holds the rows from offset to offset + limit, as many as there are; taking it fails exactly when the sum does not fit 64 bits. |
| `OrderLimit.CountTaken` | planner/builder/merge_node.go:247-258 | Cutting a sorted list to n caps, for every row, the number of rows up to it at n. |
| `OrderLimit.AnswersCount` | planner/builder/merge_node.go:239-258 | Up to offset + limit, the truncated answers count as the untruncated shards do. |
| `OrderLimit.SameFirst` | executor/engine/operator/orderby_operator.go:42-83 | The first offset + limit sort keys of the merged answers are those of the whole table. |
| `OrderLimit.OrderedPage` | executor/engine/operator/orderby_operator.go:42-83 | For every split into shards and every way ties fall, the page has the sort keys of the page of one table, consists of rows of the table, and is that page when no two rows tie. |
| `AggregatePlan.InsertAvg` | planner/builder/aggregate_plan.go:107-114 | Shifting the select list in place puts sum and count where avg was and keeps the rest in order. |
| `AggregatePlan.ReadTuples` | planner/builder/aggregate_plan.go:76-101 | The select list is readable exactly when it has no unknown function and no selected *. |
| `AggregatePlan.AnalyzeItem` | planner/builder/aggregate_plan.go:76-120 | One item keeps the running index on its column, the aggregators on theirs and the rewritten list expanded up to it. |
| `AggregatePlan.AnalyzeItems` | planner/builder/aggregate_plan.go:75-121 | The running index stays on the column of each item for any number and position of averages. |
| `AggregatePlan.OwnColumns` | planner/builder/aggregate_plan.go:103-121 | Every aggregator, also the three of an avg, points at its own column of the rewritten select list. |
| `AggregatePlan.FindGroup` | planner/builder/aggregate_plan.go:123-136 | A GROUP BY field is found exactly when a plain column of that name is selected, and at the position of that column. |
| `AggregatePlan.FindGroups` | planner/builder/aggregate_plan.go:123-136 | All GROUP BY fields are found exactly when each is a selected plain column, each at its own position. |
| `AggregatePlan.Analyze` | planner/builder/aggregate_plan.go:70-138 | The plan is refused exactly for an unknown function, a selected * or a GROUP BY field outside the select list; otherwise list, aggregators and group indexes fit together. |
| `Aggregate.AggAppends` | vendor/github.com/sealdb/mysqlstack/sqlparser/depends/sqltypes/aggregation.go:164-207 | count, sum, min and max of two parts combine to the value of both, with NULL for parts without values. |
| `Aggregate.AvgOfSumAndCount` | vendor/github.com/sealdb/mysqlstack/sqlparser/depends/sqltypes/aggregation.go:249-269 | The quotient of combined sum and count is the average, NULL without values. |
| `Aggregate.Combine` | vendor/github.com/sealdb/mysqlstack/sqlparser/depends/sqltypes/arithmetic.go:165-192 | One update step respects SQL equality of values. |
| `Aggregate.FoldPermutes` | executor/engine/operator/aggregate_operator.go:90-110 | The order in which partial rows arrive does not change a folded value. |
| `Aggregate.LeastIsLeast` | vendor/github.com/sealdb/mysqlstack/sqlparser/depends/sqltypes/arithmetic.go:165-192 | min is a value of the group below all others. |
| `Aggregate.GreatestIsGreatest` | vendor/github.com/sealdb/mysqlstack/sqlparser/depends/sqltypes/arithmetic.go:169-192 | max is a value of the group above all others. |
| `Grouping.ShardsCombine` | planner/builder/merge_node.go:178-216 | For every key the partial rows of all shards fold to the aggregates of all rows with that key. |
| `AggregateOperator.UpdateCtxs` | executor/engine/operator/aggregate_operator.go:99-105 | Each aggregator takes the row into its own running value. |
| `AggregateOperator.InitCtxs` | executor/engine/operator/aggregate_operator.go:94-95 | The running values of a new group are those of its first row. |
| `AggregateOperator.AddRow` | executor/engine/operator/aggregate_operator.go:92-109 | The next row of the sorted list joins the last group or starts one, and the groups stay the runs of equal keys with their values. |
| `AggregateOperator.BuildGroups` | executor/engine/operator/aggregate_operator.go:90-110 | Folding adjacent rows of a sorted list makes one group for each distinct key, and the values of a group are those of all rows with its key. |
| `AggregateOperator.RunIsGroup` | executor/engine/operator/aggregate_operator.go:66-77 | In sorted rows a run of equal keys holds all rows with that key. |
| `AggregateResult.GetResults` | vendor/github.com/sealdb/mysqlstack/sqlparser/depends/sqltypes/aggregation.go:247-269 | Every item gets its folded value in its own column, an avg its quotient, and the columns to remove are exactly the second ones of the averages. |
| `AggregateResult.RemoveColumns` | vendor/github.com/sealdb/mysqlstack/sqlparser/depends/sqltypes/column.go:14-56 | Keeps the columns that are not listed, in order. |
| `AggregateResult.FinishGroup` | executor/engine/operator/aggregate_operator.go:111-126 | The client sees one column for each item of its select list, in order. |
| `TwoPhase.GroupsAnswer` | executor/engine/operator/aggregate_operator.go:55-127 | The finished groups answer the grouped query on the whole table: one row for each key, with the one-phase values. |
| `TwoPhase.FinishGroups` | executor/engine/operator/aggregate_operator.go:112-118 | Each group gives one row with its finished values. |
| `TwoPhase.FoldRows` | executor/engine/operator/aggregate_operator.go:90-127 | Folding the sorted partial rows answers the grouped query on the whole table, with a row exactly when there were rows. |
| `TwoPhase.Execute` | executor/engine/operator/aggregate_operator.go:55-127 | Two-phase aggregation answers as one table would if and only if there is a row at all, or no GROUP BY, or no aggregate. |
| `TwoPhase.GroupsOfNothing` | executor/engine/operator/aggregate_operator.go:120-124 | GROUP BY with COUNT over one empty shard: one table answers no row, the operator answers one. |
| `TwoPhase.NothingGrouped` | executor/engine/operator/aggregate_operator.go:120-124 | On one table a GROUP BY over no rows has no answer row. |
| `TwoPhase.PlannedQuery` | planner/builder/aggregate_plan.go:123-136 | The group indexes name the plain columns that GROUP BY asks for, in the expanded list. |
| `PlanTree.LCAIsLowest` | planner/builder/plan_node.go:41-59 | The node found contains both nodes and is part of every subtree that does. |
| `PlanTree.LCASeparates` | planner/builder/plan_node.go:41-59 | Two leaves meet at a join with the leaf of smaller order on its left and the other on its right. |
| `PlanTree.Orders.ReOrder` | planner/builder/join_node.go:825-829 | Orders increase from left to right at every join and lie above the starting number. |
| `PlanState.DestIsLast` | planner/builder/join_node.go:640-674 | An expression sent down the tree lands at a leaf that no leaf it mentions comes after. |
| `PlanState.DestIsLastOfSpan` | planner/builder/join_node.go:640-674 | An expression is sent to the last leaf of the smallest subtree with all its columns, mentioned or not. |
| `PlanState.DestIsMentioned` | planner/builder/join_node.go:640-674 | That leaf is a mentioned one when the subtree is a leaf or has one leaf on its right. |
| `PlanState.SentToUnmentioned` | planner/builder/join_node.go:640-674 | In A join (B join C) an expression over A and B is sent to C. |
| `PlanState.WholeOk` | planner/builder/join_node.go:640-674 | Adding a field to a subtree keeps every column number of the tree right. |
| `PlanState.FieldIsAtLeaf` | planner/builder/join_node.go:640-674 | Every field of a node is a field of the leaf that it was sent to. |
| `PlanBuilder.Planner.constructor` | planner/builder/join_node.go:126-144 | A plan without fields is in order. |
| `PlanBuilder.Planner.PushSelectExpr` | planner/builder/join_node.go:640-674 | A field is added on the way to one leaf only, column numbers of all joins stay right, and only a function on the right of a left join is refused, without effect. |
| `PlanBuilder.Planner.PushToRoot` | planner/builder/join_node.go:480-504 | Whatever is sent down from the root only mentions columns of its leaf and of earlier leaves; it is refused exactly for a function that would land on the right of a LEFT JOIN. |
| `PlanBuilder.Planner.LastLeaf` | planner/builder/join_node.go:548-559 | The chosen leaf is a mentioned one of greatest order. |
| `PlanBuilder.Planner.PushOtherFilter` | planner/builder/join_node.go:544-560 | A condition goes to the last of the leaves that it mentions, is kept there and nowhere else, and only mentions columns that its leaf can reach. |
| `PlanBuilder.Planner.FindField` | planner/builder/join_node.go:870-880 | A field that holds the column, or none exactly when no field does. |
| `PlanBuilder.Planner.PushColumn` | planner/builder/join_node.go:882-890 | A column is never refused; only the leaf of the column changes, and the returned number is that of the column. |
| `PlanBuilder.Planner.ColumnIndex` | planner/builder/join_node.go:869-891 | The returned number is that of a field that holds the column, added when it was missing. |
| `PlanBuilder.Planner.Procure` | planner/builder/join_node.go:860-894 | The join gets a variable for the column and takes it from the field that holds it; no leaf but that of the column changes. |
| `PlanBuilder.Planner.Substitute` | planner/builder/merge_node.go:293-309 | A foreign column becomes a variable of the join where the leaves meet, and of the leaves only that of the column changes. |
| `PlanBuilder.Planner.BuildColumn` | planner/builder/merge_node.go:293-309 | One more column of the query is bound, and no printed query loses a variable. |
| `PlanBuilder.Planner.BuildLeaf` | planner/builder/merge_node.go:283-339 | A printed query names only variables that exist, and the root returns the fields it did. |
| `PlanBuilder.Planner.BuildQuery` | planner/builder/join_node.go:837-849 | The leaves of a subtree are printed once each, in strictly decreasing order. |
| `PlanBuilder.Planner.BuildAll` | planner/builder/join_node.go:837-849 | After printing, every column that a query asks of another leaf is a variable of the join where they meet. |
| `PlanExec.JoinedRow` | executor/engine/join_engine.go:204-217 | The numbered columns of a join give the row that its leaf rows stand for. |
| `PlanExec.PaddedRow` | executor/engine/join_engine.go:204-217 | Without a right row the columns of the right side are NULL. |
| `PlanRun.AgreesRight` | executor/engine/join_engine.go:118-124 | For the right side every outside column is bound to its value in the current left row of the join where they meet; no outer variable is overwritten. |
| `PlanRun.GenerateQuery` | executor/engine/merge_engine.go:65-76 | The query of a leaf finds every variable bound, to the value of the column it stands for. |
| `PlanRun.JoinOneRow` | executor/engine/join_engine.go:129-151 | The loop over the right rows adds the combinations of one left row or its padding, and fails exactly when there are then more rows than the limit. |
| `PlanRun.ExecRow` | executor/engine/join_engine.go:109-152 | One left row with its variables adds what the join stands for on that row, or fails exactly when the right side or the sum of the rows is above the limit. |
| `PlanRun.ExecBindVars` | executor/engine/join_engine.go:97-152 | Running a subtree with variables by name and columns by number gives the rows that the tree of joins stands for, and fails if and only if some join in it returns more rows than the limit. |
| `PlanRun.PlanAndRun` | planner/builder/join_node.go:837-849 | Printing all queries and running the plan gives what the tree of joins stands for, for any tree and select list and for leaves that answer with any function of their bound columns, unless a join exceeds the row limit. |
| `PlanFilter.InnerMeaning` | executor/engine/join_engine.go:97-152 | A tree of inner joins stands for the product of its tables, filtered by the conditions at its leaves and with their expressions evaluated, each seen with the rows of the leaves to its left. |
| `PlanFilter.RightAnswers` | executor/engine/join_engine.go:118-126 | A right side that consists of inner joins, be it of an inner or of a left join, answers the conditions at its leaves: it returns the rows on which they are true next to the current left row. |
| `PlanFilter.RootMeaning` | planner/builder/join_node.go:544-560 | For a whole statement of inner joins the rows are the select list on every combination of rows of all tables that satisfies all conditions that were pushed; an expression over several tables is evaluated on the combination. |
| `PlanFilter.FieldIs` | planner/builder/join_node.go:640-674 | What the leaf of a field returns for it, from its own row and variables, is the value of the field on the current rows of all tables. |
| `PlanFilter.LeafMeaning` | planner/builder/merge_node.go:283-339 | The query of a leaf, with variables for columns of other leaves, filters as the conditions do on the combined row. |
| `PlanFilter.SelectInner` | planner/builder/join_node.go:544-560 | Planning, printing and running a statement of inner joins returns the select list, columns and expressions, on exactly the combinations of the product that satisfy every pushed condition, or fails exactly when a join exceeds the row limit. |
| `StreamFetch.OpenWhileActive` | backend/txn.go:611-645 | A producer that has not returned finds the channel open. |
| `StreamFetch.FetchKeeps` | backend/txn.go:613-644 | Counting producers under the mutex closes the channel exactly when the last one returns, and only while it is open. |
| `StreamFetch.SendKeeps` | backend/txn.go:627-631 | A row is only sent to an open channel, and the rows of a cursor go out in order. |
| `StreamFetch.Produce` | backend/txn.go:613-643 | A producer that reads its cursor keeps the protocol, sends nothing yet and makes progress; a row that cannot be read is an error, a broken connection ends it like the last row. |
| `StreamFetch.Send` | backend/txn.go:628-632 | A producer sends only to an open channel, keeps the protocol and makes progress. |
| `StreamFetch.Stop` | backend/txn.go:628-630 | A producer that is told to stop keeps the protocol and ends. |
| `StreamFetch.NotStuck` | backend/txn.go:657-690 | When the consumer waits on an empty channel and no producer is at work, the channel is closed. |
| `StreamFetch.Consume` | backend/txn.go:665-690 | The consumer loses no row and hands over a batch exactly when it reaches the threshold. |
| `StreamFetch.FetchAll` | backend/txn.go:611-692 | Under every schedule the fetch ends; if it succeeds no row was unreadable, the batches are a merge of what the cursors yielded, the count is exact and all batches but the last reach the threshold only with their last row, and all rows of the backends arrived if and only if no cursor was cut short; otherwise a row was unreadable or the client refused a message. |
| `StreamFetch.CompleteExactly` | vendor/github.com/sealdb/mysqlstack/driver/rows.go:70-109 | A merge of what Next yielded holds all rows of the backends if and only if no cursor was cut short: Next hides a broken connection and an ERR packet, and the producer does not ask for the error. |
| `StreamFetch.LostRows` | backend/txn.go:633-641 | The rows that were sent are as many as the backends had if and only if no cursor was cut short. |
| `StreamFetch.ExecuteStreamFetch` | backend/txn.go:565-698 | The client gets the fields, the batches and the number of rows that were sent, which is the number of rows of the backends if and only if no cursor was cut short. |
| `StreamFetch.CutFetch` | backend/txn.go:614-643 | A fetch from a backend that breaks after the first of its two rows succeeds and reports one row. |

## Left out

- Network, authentication, privileges, audit, monitoring, statistics, command line and mocks: no invariant of their own.
- The SQL parser and printer and the texts of the queries: plans are modelled as the data they carry.
- Statements inside an XA transaction, transaction ids, connection pools, timeouts, kill and the release of connections in Finish and Abort.
- Manual XA COMMIT and XA ROLLBACK by an operator, shard migration and the metadata syncer.
- XaSafety.ReadersSeeAllOrNothing: says nothing about a reader that begins after a COMMIT phase failed, because the write may then be visible on some backends until recovery is done.
- XaProtocol: one transaction at a time; the log of the machine holds one entry, the log with many entries is RecoveryLog.
- RecoveryLog.XaCheck.Flush: the file is written as a whole; a torn write and a failing disk (the code panics) are not modelled.
- RecoveryLog.XaCheck.Restart: retries that were counted since the last flush are given back, as in the code, so the bound of Recover counts from the last restart.
- JoinEngine.NestedLoop: the right side is a function that answers the ON condition; `PlanFilter.RightAnswers` proves that for plan trees, whose rows are those of `PlanExec.Meaning`.
- Comparison operators that the executor has no case for are treated as matching, as in the code.
- Child plans, field metadata and the field query for an empty left side of a nested loop.
- The choice of the join strategy and the order keys of sort-merge joins in the planner.
- PlanBuilder: names of join variables must not clash between different columns; the code joins table and column with an underscore.
- Aliases of derived columns and HAVING in plan trees.
- PlanBuilder: nodes are entries of a map by number, so aliasing between node objects is not modelled.
- Storage: partition tables must have different names, which `HashUniform.NamesDiffer` proves for generated layouts; slices that the code sorts or shares in place are sequences.
- INSERT with ON DUPLICATE KEY UPDATE, REPLACE, and LIMIT in UPDATE and DELETE; global and single tables.
- HashKeys: underscores between digits, which base 0 of ParseInt allows and no SQL literal has, and the rounding of floats.
- Routing.MergeNode.CalcRoute: one sharded table; `MergedRoute.MergedNode.CalcRoute` covers two, and nodes of global tables are not modelled.
- MergedRoute.MergedNode.CalcRoute: two hash-sharded tables; three or more and global tables among them are not modelled.
- ShardedTables.ShardedTable.Update: an unknown table is not modelled.
- ShardedTables.ShardedTable.Delete: several tables, PARTITION, the check of qualified fields and their rewriting for each segment are not modelled; conditions are evaluated as on the logical table.
- AggregatePlan.Analyze: the push-down path only; without push-down the select list is rewritten to the arguments of the aggregates.
- PlanFilter.SelectInner: conditions without columns and the copies of a key condition for joined columns are not modelled; left joins are not covered, except their right sides by `PlanFilter.RightAnswers`.
- PlanFilter.RightAnswers: requires that the right side consists of inner joins; one that contains a left join has the rows of `PlanExec.Meaning`.
- Colocated.PushedDownJoin: hash tables only; LIST tables are accepted by the code without comparing their values, and a global table on the left of a LEFT JOIN is not covered.
- Building the map of a LIST table and ListUniform.
- OrderLimit.OrderedPage: requires that offset + limit fits 64 bits, since the shards are otherwise sent a negative count; no GROUP BY and no aggregates; a missing ORDER BY field and columns removed after sorting are not modelled.
- TwoPhase.Execute: aggregates with DISTINCT and the path without push-down are not modelled; numbers are exact, without rounding, overflow and field types; a plain column outside GROUP BY is any value of its group.
- UNION, subqueries and the texts of EXPLAIN.
- StreamFetch.ExecuteStreamFetch: requires at least one cursor, because the code takes the fields of the first.
- StreamFetch.FetchAll: the reuse of the slice of a batch after the client took it is not modelled.
