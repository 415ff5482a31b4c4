# NARS blocks-world evolution: a verified model of the reasoning core

This project models the core of a Non-Axiomatic Reasoning System (NARS)
agent that learns to solve a blocks world, together with the genome that an
evolutionary loop breeds for it. Each module below follows one source class:

- **Values**: the `EvidentialValue` constructor, which clamps confidence into (0, 1).
- **Tables**: the per-concept belief and desire `Table`. It is a list sorted by
  descending key. Putting an event takes the top entry and then revises or chooses.
  Putting an eternal sentence broadcasts revision. Overflow is trimmed, and `Forget`
  decays the table.
- **Bags**: the bucketed `Bag` (priority buckets, keyed lookup, cumulative-weight
  sampling, eviction before insertion).
- **Buffers**: the global `Buffer`, a max-priority queue of sentences.
- **Temporal, Contingencies, ContingencyLoops, Enumerations**: the `TemporalModule`.
  - Its event chain is kept sorted by occurrence time, using the .NET binary-search
    insert position, and the oldest event is evicted.
  - Its three contingency-forming strategies (1S, 2S, 3S) are proved to emit exactly
    one implication per admissible index tuple, in loop order.
  - Its anticipation list and per-term counter dictionary support countdown,
    disappointment and cancellation.
- **Reasoner**: the `NARS` reasoner.
  - The working cycle drains exactly the items that were queued when it started.
  - Sentences are dispatched by kind.
  - Judgments go to memory and the temporal module.
  - Goals pass through the desire-table put/take/put-back sequence and the
    goal-continuation decision tree.
  - Also modelled: `SendInput`, goal activation, and the genome set-up.
- **Blocks**: the blocks world (`on` map, `clear` set, Stack/Unstack rules, random
  state generation, the Fisher–Yates shuffle, goal latch, fitness).
- **Body**: the body (sensation enumeration, thresholded first-max motor
  selection, unique-state fitness).
- **Genomes**: the genome (personality parameter indexing, evolution-mode
  predicates, index-skipping draws, the duplicate-free belief list with its
  key set, Hamming distance, crossover, clamped integer mutation).

Collaborators whose code is not part of this model are fields of an `Engine`
record of uninterpreted functions (Terms.dfy):
- revision, time-decayed value, `may_interact`, `Decision`, `is_positive`;
- inference rules, term strings, motor activation, the forgetting factor;
- explanation links: how many a concept has, and the one a draw picks;
- compound-term construction.

Every random draw (`UnityEngine.Random`, `System.Random`) is an explicit unit
real in [0, 1). An integer in [a, b) is then a + floor(u·(b − a)).

Methods that change state are proved against specification functions. The
table, buffer, chain and reasoner state are each tied to a function of the old
state. The properties are then proved as lemmas about those functions.

## Model

Source paths are relative to the repository root.

| member | source | states |
|---|---|---|
| Values.MakeValue | Assets/Scripts/NARS/NALGrammar/Values.cs:14-22 | frequency is kept as given; confidence always lands in (0, 1) and is unchanged when already inside it |
| Values.MakeValueCases | Assets/Scripts/NARS/NALGrammar/Values.cs:16-17 | confidence ≥ 1 becomes 0.9999, ≤ 0 becomes 0.0001, anything strictly between is kept |
| Values.MakeValueIdempotent | Assets/Scripts/NARS/NALGrammar/Values.cs:14-22 | rebuilding a value from a built value's fields gives the same value |
| Values.DefaultValue | Assets/Scripts/NARS/NALGrammar/Values.cs:10-13 | the parameterless struct has both fields 0, a confidence outside the clamped range |
| Tables.InsertPosition | Assets/Scripts/NARS/NARSDataStructures/Other.cs:29-37 | the comparer never answers "equal", so a new key goes after every strictly greater key and before every key at most its own |
| Tables.InsertMultiset | Assets/Scripts/NARS/NARSDataStructures/Other.cs:58 | adding to the sorted list adds exactly that entry |
| Tables.InsertSorted | Assets/Scripts/NARS/NARSDataStructures/Other.cs:29-37 | adding keeps the list in non-increasing key order |
| Tables.InsertAllContents | Assets/Scripts/NARS/NARSDataStructures/Other.cs:84-94 | adding a batch adds exactly the batch's entries |
| Tables.InsertAllSorted | Assets/Scripts/NARS/NARSDataStructures/Other.cs:84-94 | adding a batch keeps key order |
| Tables.Table.constructor | Assets/Scripts/NARS/NARSDataStructures/Other.cs:26-40 | an empty table with the given capacity |
| Tables.Table.Count | Assets/Scripts/NARS/NARSDataStructures/Other.cs:128-131 | the number of stored entries |
| Tables.Table.Peek | Assets/Scripts/NARS/NARSDataStructures/Other.cs:145-155 | None exactly when empty; otherwise position 0, whose key is the maximum |
| Tables.Table.Take | Assets/Scripts/NARS/NARSDataStructures/Other.cs:133-143 | returns what Peek returns and removes exactly position 0; an empty table is unchanged |
| Tables.Table.PeekRandom | Assets/Scripts/NARS/NARSDataStructures/Other.cs:182-193 | None exactly when empty; otherwise the stored sentence at the drawn index |
| Tables.Table.PeekFirstInteractable | Assets/Scripts/NARS/NARSDataStructures/Other.cs:195-215 | the loop returns the first entry, highest key first, that may interact with j |
| Tables.Table.PeekAllInteractable | Assets/Scripts/NARS/NARSDataStructures/Other.cs:217-238 | the loop returns exactly the interactable sentences in table order |
| Tables.Table.PeekRandomInteractable | Assets/Scripts/NARS/NARSDataStructures/Other.cs:158-180 | None exactly when nothing may interact; otherwise the drawn element of the interactable list |
| Tables.Table.Put | Assets/Scripts/NARS/NARSDataStructures/Other.cs:42-103 | the new table is the staged additions trimmed to capacity, and stays sorted |
| Tables.Table.StageEntries | Assets/Scripts/NARS/NARSDataStructures/Other.cs:47-95 | the event/eternal branch of put before the trim loop |
| Tables.Table.Forget | Assets/Scripts/NARS/NARSDataStructures/Other.cs:105-126 | the table becomes the forgotten table of the old entries, and stays sorted |
| Tables.TrimmedSorted | Assets/Scripts/NARS/NARSDataStructures/Other.cs:99-102 | trimming keeps key order |
| Tables.StagedSorted | Assets/Scripts/NARS/NARSDataStructures/Other.cs:47-95 | staging keeps key order |
| Tables.TrimmedDropsHighest | Assets/Scripts/NARS/NARSDataStructures/Other.cs:99-102 | the trim keeps the last min(n, cap) entries and drops only keys at least as high as every kept key (the code removes position 0, the highest key) |
| Tables.InteractableMembers | Assets/Scripts/NARS/NARSDataStructures/Other.cs:217-238 | a sentence is interactable exactly when some entry holds it and it may interact with j |
| Tables.FirstInteractableIsFirst | Assets/Scripts/NARS/NARSDataStructures/Other.cs:195-215 | the result is null exactly when no entry interacts; otherwise it is held by an interacting entry with no interacting entry before it |
| Tables.FirstInteractableIsHead | Assets/Scripts/NARS/NARSDataStructures/Other.cs:195-238 | the first interactable sentence is the head of the interactable list |
| Tables.StagedContents | Assets/Scripts/NARS/NARSDataStructures/Other.cs:47-95 | an event into a non-empty table replaces the top entry by its revision or by the choice entry, so the count is unchanged; otherwise exactly one revised entry per interactable entry is added, plus the sentence under its own confidence |
| Tables.ChoiceKeepsStronger | Assets/Scripts/NARS/NARSDataStructures/Other.cs:63-73 | the choice rule keeps the stored event only when its decayed confidence is strictly higher, so a tie keeps the new one; the key is the larger decayed confidence |
| Tables.PutBounds | Assets/Scripts/NARS/NARSDataStructures/Other.cs:99-102 | after put the count is at most the capacity; an event never grows a non-empty table |
| Tables.ForgottenContents | Assets/Scripts/NARS/NARSDataStructures/Other.cs:105-126 | forgetting keeps the count and sortedness; empty tables and tables topped by an event are unchanged; otherwise exactly the decayed entries remain |
| Tables.ForgottenScales | Assets/Scripts/NARS/NARSDataStructures/Other.cs:116 | every stored sentence comes back with its confidence multiplied by the factor, keyed by that confidence |
| Tables.ForgottenKeepsOrder | Assets/Scripts/NARS/NARSDataStructures/Other.cs:113-125 | on strictly ordered keys and a positive factor, forgetting keeps the list order entry for entry |
| Tables.InsertAllDescending | Assets/Scripts/NARS/NARSDataStructures/Other.cs:121-125 | re-adding strictly descending keys one by one rebuilds the same list |
| Bags.BucketNumRange | Assets/Scripts/NARS/NARSDataStructures/Bag.cs:297-300 | for v ≥ 0 the bucket lies in [0, g) and is floor(v·g) while that is below g |
| Bags.BucketNumMonotone | Assets/Scripts/NARS/NARSDataStructures/Bag.cs:297-300 | a higher priority never maps to a lower bucket |
| Bags.RemoveFirst | Assets/Scripts/NARS/NARSDataStructures/Bag.cs:155 | List.Remove drops one occurrence of the key |
| Bags.CumulativeZeroIffEmpty | Assets/Scripts/NARS/NARSDataStructures/Bag.cs:262-276 | the cumulative weight is 0 exactly when every bucket below is empty |
| Bags.LevelForIsNonEmpty | Assets/Scripts/NARS/NARSDataStructures/Bag.cs:278-288 | for r in [0, total) the chosen level is non-empty and its cumulative interval holds r |
| Bags.AddedConsistent | Assets/Scripts/NARS/NARSDataStructures/Bag.cs:141-148 | adding a key to its bucket keeps every key in exactly the bucket recorded for it |
| Bags.RemovedConsistent | Assets/Scripts/NARS/NARSDataStructures/Bag.cs:151-157 | removing a key from its bucket keeps that invariant and leaves the key in no bucket |
| Bags.Bag.constructor | Assets/Scripts/NARS/NARSDataStructures/Bag.cs:27-40 | granularity empty buckets and an empty lookup |
| Bags.Bag.StoredInOwnBucket | Assets/Scripts/NARS/NARSDataStructures/Bag.cs:141-157 | a stored key sits in the bucket of its priority and in no other |
| Bags.Bag.EmptyBucketsMeansEmpty | Assets/Scripts/NARS/NARSDataStructures/Bag.cs:264-268 | all buckets are empty exactly when nothing is stored |
| Bags.Bag.BucketKeysStored | Assets/Scripts/NARS/NARSDataStructures/Bag.cs:141-148 | every key found in a bucket is stored and records that bucket |
| Bags.Bag.Clear | Assets/Scripts/NARS/NARSDataStructures/Bag.cs:42-51 | every bucket and the lookup are emptied |
| Bags.Bag.AddItemToBucket | Assets/Scripts/NARS/NARSDataStructures/Bag.cs:141-148 | only the item's bucket changes, by appending its key, and the item records that bucket |
| Bags.Bag.RemoveItemFromItsBucket | Assets/Scripts/NARS/NARSDataStructures/Bag.cs:151-157 | only the recorded bucket changes, by losing the key, and the record is cleared |
| Bags.Bag.PutNew | Assets/Scripts/NARS/NARSDataStructures/Bag.cs:53-73 | under capacity the lookup gains exactly the new item and its key is appended to its priority's bucket; over capacity exactly one old item leaves first, the one the two draws pick from the sampled level, its first occurrence is removed from that bucket before the append, and the count stays the same; the sampling level is kept |
| Bags.Bag.Peek | Assets/Scripts/NARS/NARSDataStructures/Bag.cs:75-98 | a keyed peek returns the stored item or None for an absent key; an unkeyed peek is None exactly when empty; nothing changes |
| Bags.Bag.PeekProbabilistically | Assets/Scripts/NARS/NARSDataStructures/Bag.cs:255-294 | None exactly when all buckets are empty; otherwise the item the second draw picks inside the level the first draw samples |
| Bags.Bag.ChangePriority | Assets/Scripts/NARS/NARSDataStructures/Bag.cs:100-119 | only the keyed item changes, to its new priority and bucket; the key leaves its old bucket (first occurrence) and is appended to the new one, every other bucket, the count, every other item and the sampling level stay |
| Bags.Bag.TakeUsingKey | Assets/Scripts/NARS/NARSDataStructures/Bag.cs:217-230 | the item leaves the lookup and its bucket, from which only its first occurrence is removed; no bucket holds it afterwards, the other buckets and the sampling level stay |
| Bags.Bag.TakeMin | Assets/Scripts/NARS/NARSDataStructures/Bag.cs:233-252 | None exactly when empty, and then nothing changes; otherwise the item the two draws pick from the sampled level is removed from the lookup and from that bucket alone, and the count drops by one; the sampling level stays |
| Bags.SampleLevel | Assets/Scripts/NARS/NARSDataStructures/Bag.cs:259-288 | the accumulation loop gives the sample point in [0, total) and the first level whose cumulative weight exceeds it, which is non-empty |
| Bags.PickLevel | Assets/Scripts/NARS/NARSDataStructures/Bag.cs:278-288 | the CDF walk returns the first level whose cumulative weight exceeds r |
| Buffers.SortedHead | Assets/Scripts/NARS/NARSDataStructures/Buffers.cs:14 | in a sorted queue the head has the maximum priority |
| Buffers.SortedPairs | Assets/Scripts/NARS/NARSDataStructures/Buffers.cs:57-63 | priorities never increase along a sorted queue |
| Buffers.EnqueuePosition | Assets/Scripts/NARS/NARSDataStructures/Buffers.cs:50-55 | a new item lands after every item of at least its priority, with the rest in order around it |
| Buffers.EnqueueContents | Assets/Scripts/NARS/NARSDataStructures/Buffers.cs:50-55 | enqueueing adds exactly that item |
| Buffers.EnqueueSorted | Assets/Scripts/NARS/NARSDataStructures/Buffers.cs:50-55 | enqueueing keeps the queue sorted |
| Buffers.EnqueueAllSorted | Assets/Scripts/NARS/NARSDataStructures/Buffers.cs:50-55 | queueing a batch keeps the queue sorted |
| Buffers.EnqueueAllContents | Assets/Scripts/NARS/NARSDataStructures/Buffers.cs:50-55 | queueing a batch adds every sentence once, under its priority |
| Buffers.EnqueueAllAppend | Assets/Scripts/NARS/NARSDataStructures/Buffers.cs:50-55 | queueing two batches one after the other equals queueing their concatenation |
| Buffers.Buffer.constructor | Assets/Scripts/NARS/NARSDataStructures/Buffers.cs:16-19 | an empty queue with the given capacity |
| Buffers.Buffer.Peek | Assets/Scripts/NARS/NARSDataStructures/Buffers.cs:32-47 | an unkeyed peek is None exactly when empty, otherwise a stored item of maximum priority |
| Buffers.Buffer.Take | Assets/Scripts/NARS/NARSDataStructures/Buffers.cs:21-30 | None exactly when empty; otherwise the head, of maximum priority, is removed and exactly the tail remains |
| Buffers.Buffer.PutNew | Assets/Scripts/NARS/NARSDataStructures/Buffers.cs:50-55 | the sentence is queued once under its priority and the queue stays sorted |
| Temporal.Search | Assets/Scripts/NARS/NARSDataStructures/Buffers.cs:93-94 | the .NET List.BinarySearch probe (midpoint lo + (hi − lo)/2, stop at an equal time, else the insert point) stays inside [lo, hi + 1] |
| Temporal.SearchSplits | Assets/Scripts/NARS/NARSDataStructures/Buffers.cs:93-95 | on a sorted chain every event before the position is no later and every event from it on is no earlier |
| Temporal.TimePositionSplits | Assets/Scripts/NARS/NARSDataStructures/Buffers.cs:93-95 | the insert position splits the chain by time, so inserting there keeps it sorted |
| Temporal.SearchReportsProbe | Assets/Scripts/NARS/NARSDataStructures/Buffers.cs:93-95 | on times [0,1,1,1,1] a new event at time 1 goes to index 2, the first equal midpoint, not to the lower bound 1 |
| Temporal.Inserted | Assets/Scripts/NARS/NARSDataStructures/Buffers.cs:95 | the chain gains exactly the new event |
| Temporal.InsertedSorted | Assets/Scripts/NARS/NARSDataStructures/Buffers.cs:92-95 | insertion keeps the chain sorted by occurrence time |
| Temporal.HeadEarliest | Assets/Scripts/NARS/NARSDataStructures/Buffers.cs:101-103 | position 0 of a sorted chain is the oldest event |
| Temporal.PendingIff | Assets/Scripts/NARS/NARSDataStructures/Buffers.cs:484-487 | a term has pending anticipations exactly when some list entry is for it |
| Temporal.AddedAgree | Assets/Scripts/NARS/NARSDataStructures/Buffers.cs:440-454 | appending an anticipation and incrementing its counter keeps the counters equal to the list counts |
| Temporal.RemovedAgree | Assets/Scripts/NARS/NARSDataStructures/Buffers.cs:466-471 | removing an entry and decrementing its counter, dropping the key at 0, keeps the counters in agreement |
| Temporal.RewrittenAgree | Assets/Scripts/NARS/NARSDataStructures/Buffers.cs:476-479 | rewriting an entry's remaining time keeps the counters in agreement |
| Temporal.WithoutMembers | Assets/Scripts/NARS/NARSDataStructures/Buffers.cs:489-501 | cancellation keeps exactly the entries for other terms |
| Temporal.WithoutPending | Assets/Scripts/NARS/NARSDataStructures/Buffers.cs:489-501 | after cancelling t nothing is pending for t, and other counts are unchanged |
| Temporal.WithoutAgree | Assets/Scripts/NARS/NARSDataStructures/Buffers.cs:489-501 | cancelling and dropping the counter keeps the counters in agreement |
| Temporal.Disappointment | Assets/Scripts/NARS/NARSDataStructures/Buffers.cs:472-475 | a disappointment is an eternal frequency-0 judgment of the anticipated term |
| Temporal.Disappointments | Assets/Scripts/NARS/NARSDataStructures/Buffers.cs:456-482 | every anticipation either survives the tick or disappoints, never both |
| Temporal.TickedSplit | Assets/Scripts/NARS/NARSDataStructures/Buffers.cs:456-482 | ticking works entry by entry |
| Temporal.DisappointmentsMembers | Assets/Scripts/NARS/NARSDataStructures/Buffers.cs:472-475 | the disappointments are exactly those of the expiring anticipations |
| Temporal.Lifetime | Assets/Scripts/NARS/NARSDataStructures/Buffers.cs:440-482 | an anticipation with window w survives w − 1 updates, counting down, and disappoints exactly once, at the w-th |
| Temporal.RemoveAll | Assets/Scripts/NARS/NARSDataStructures/Buffers.cs:489-501 | the reverse-index removal loop leaves exactly the entries for other terms, in order |
| Temporal.TemporalModule.constructor | Assets/Scripts/NARS/NARSDataStructures/Buffers.cs:78-83 | an empty chain and no anticipations, with the given capacity |
| Temporal.TemporalModule.Count | Assets/Scripts/NARS/NARSDataStructures/Buffers.cs:111 | the chain length |
| Temporal.TemporalModule.MostRecent | Assets/Scripts/NARS/NARSDataStructures/Buffers.cs:138-145 | None exactly when the chain is empty; otherwise a chain event with the latest occurrence time |
| Temporal.TemporalModule.PutNew | Assets/Scripts/NARS/NARSDataStructures/Buffers.cs:89-109 | a non-statement changes nothing; otherwise the event goes in at the binary-search position, the oldest is popped only when over capacity, and the chaining's contingencies are queued |
| Temporal.TemporalModule.ChainingSteps | Assets/Scripts/NARS/NARSDataStructures/Buffers.cs:129-136 | at most one strategy runs, 1S before 2S before 3S, which queues exactly that strategy's emissions |
| Temporal.TemporalModule.FormContingencies1S | Assets/Scripts/NARS/NARSDataStructures/Buffers.cs:187-245 | the nested loops queue exactly the one-sensor emissions |
| Temporal.TemporalModule.FormContingencies2S | Assets/Scripts/NARS/NARSDataStructures/Buffers.cs:247-323 | the nested loops queue exactly the two-sensor emissions |
| Temporal.TemporalModule.TwoSensorSecond | Assets/Scripts/NARS/NARSDataStructures/Buffers.cs:262-320 | the second sensory loop and the loops inside it queue exactly their part of the two-sensor emissions |
| Temporal.TemporalModule.FormContingencies3S | Assets/Scripts/NARS/NARSDataStructures/Buffers.cs:324-430 | the nested loops queue exactly the three-sensor emissions |
| Temporal.TemporalModule.Anticipate | Assets/Scripts/NARS/NARSDataStructures/Buffers.cs:440-454 | one entry with the window is appended, and the term's counter rises by one |
| Temporal.TemporalModule.UpdateAnticipations | Assets/Scripts/NARS/NARSDataStructures/Buffers.cs:456-482 | every entry counts down by one, expired entries go, and exactly one disappointment is queued per expired entry |
| Temporal.TemporalModule.DoesAnticipate | Assets/Scripts/NARS/NARSDataStructures/Buffers.cs:484-487 | true exactly when some entry is for the term |
| Temporal.TemporalModule.RemoveAnticipations | Assets/Scripts/NARS/NARSDataStructures/Buffers.cs:489-501 | every entry for the term goes, its counter is dropped, and the remaining order is kept |
| Enumerations.EnumCount | Assets/Scripts/NARS/NARSDataStructures/Buffers.cs:187-430 | the nested index loops produce each accepted tuple extending the prefix exactly once |
| Enumerations.Exactly | Assets/Scripts/NARS/NARSDataStructures/Buffers.cs:187-430 | a tuple occurs once when admissible and accepted, otherwise never |
| Enumerations.AdmissibleIff | Assets/Scripts/NARS/NARSDataStructures/Buffers.cs:187-430 | admissible tuples are the strictly increasing index tuples inside the chain |
| Contingencies.EmissionsEnumerate | Assets/Scripts/NARS/NARSDataStructures/Buffers.cs:187-430 | a strategy emits one implication per admissible accepted tuple, in loop order, and none for any other |
| Contingencies.EmissionsShape | Assets/Scripts/NARS/NARSDataStructures/Buffers.cs:187-430 | every emission has frequency 1 and the compound confidence; 2S and 3S emit eternal predictive implications whose predicate is not an operation |
| ContingencyLoops.Formed1SEmissions | Assets/Scripts/NARS/NARSDataStructures/Buffers.cs:187-245 | the one-sensor loops (A, then operation B, then outcome C with t(A) ≤ t(B) < t(C), pairwise distinct) emit exactly the one-sensor enumeration |
| ContingencyLoops.Formed2SEmissions | Assets/Scripts/NARS/NARSDataStructures/Buffers.cs:247-323 | the two-sensor loops emit exactly the two-sensor enumeration |
| ContingencyLoops.Formed3SEmissions | Assets/Scripts/NARS/NARSDataStructures/Buffers.cs:324-430 | the three-sensor loops emit exactly the three-sensor enumeration |
| Reasoner.Believed | Assets/Scripts/NARS/NARS.cs:296-304 | a judgment changes only its own concept's beliefs, and no desires |
| Reasoner.JudgeValid | Assets/Scripts/NARS/NARS.cs:276-312 | process_judgment_initial keeps memory, chain and queue well formed |
| Reasoner.JudgeCancelsAnticipations | Assets/Scripts/NARS/NARS.cs:306-311 | a judgment that does not throw cancels exactly the anticipations of its term, so none remain for it; one that throws cancels nothing |
| Reasoner.StoredEmptyIff | Assets/Scripts/NARS/NARSDataStructures/Other.cs:42-103 | a belief table is empty after put exactly when its capacity is 0 |
| Reasoner.JudgeFails | Assets/Scripts/NARS/NARS.cs:300-328 | a judgment throws exactly when the belief tables have capacity 0, since the peek after put returns null and process_judgment_continued dereferences it |
| Reasoner.JudgeStores | Assets/Scripts/NARS/NARS.cs:294-304 | the judgment's concept gets the table put of it; every other concept and all desires are unchanged |
| Reasoner.Explained | Assets/Scripts/NARS/NARS.cs:686-726 | explanation succeeds exactly when no result throws; memory, chain and cycle are kept |
| Reasoner.Babbled | Assets/Scripts/NARS/NARS.cs:673-744 | a babble draw below 0.98 changes nothing; from 0.98, one input goal for a drawn motor term is queued; with no motor terms it throws |
| Reasoner.Continue | Assets/Scripts/NARS/NARS.cs:404-734 | process_goal_continued: declined goals change nothing; an operation is executed as a (1.0, 0.99) judgment at the current cycle; a conjunction whose first conjunct is believed emits the two-premise results, otherwise exactly one sub-goal; babbling without learning changes nothing; desires are never changed here |
| Reasoner.Admit | Assets/Scripts/NARS/NARS.cs:373-401 | after a run that does not throw, the desire table is the put-back of the taken top goal into the rest of the staged table |
| Reasoner.Process | Assets/Scripts/NARS/NARS.cs:238-273 | dispatch by kind keeps the state well formed and the cycle number |
| Reasoner.Turn | Assets/Scripts/NARS/NARS.cs:114-125 | one drain turn takes the head; a goal whose decayed confidence is below 0.1 is dropped unprocessed |
| Reasoner.Drain | Assets/Scripts/NARS/NARS.cs:110-127 | n − i turns remove at most n − i items and keep the state well formed |
| Reasoner.DrainWeak | Assets/Scripts/NARS/NARS.cs:110-127 | when every taken item is a weak goal, the turns remove exactly the first n − i items and keep the rest in order |
| Reasoner.ForgetMemoryValid | Assets/Scripts/NARS/NARS.cs:135-139 | forgetting keeps every concept, its desires, and its belief table's size and order |
| Reasoner.Cycle | Assets/Scripts/NARS/NARS.cs:96-142 | a working cycle raises the cycle number by exactly one and keeps the state well formed |
| Reasoner.CycleThrough | Assets/Scripts/NARS/NARS.cs:104-140 | a cycle is the drain of exactly the items queued at its start, followed by the learning step when the drain did not throw |
| Reasoner.CycleWeak | Assets/Scripts/NARS/NARS.cs:110-127 | over a queue of weak goals a cycle takes exactly the queued items and ends with the queue empty |
| Reasoner.Settled | Assets/Scripts/NARS/NARS.cs:132-140 | without learning the end of a cycle changes nothing |
| Reasoner.JudgeNoLearning | Assets/Scripts/NARS/NARS.cs:285-311 | without learning a judgment leaves the chain and may only cancel anticipations |
| Reasoner.ContinueNoLearning | Assets/Scripts/NARS/NARS.cs:404-734 | without learning goal continuation leaves the chain and adds no anticipation |
| Reasoner.DrainNoLearning | Assets/Scripts/NARS/NARS.cs:110-127 | without learning a drain leaves the chain and adds no anticipation |
| Reasoner.CycleNoLearning | Assets/Scripts/NARS/NARS.cs:96-142 | without learning a cycle keeps the chain, only removes anticipations, and an empty anticipation list stays empty |
| Reasoner.GenomeCapacities | Assets/Scripts/Genomes/NARSGenome.cs:406-407 | a genome inside its mutation ranges sets the table capacity to its gene, at least 1, and the event-buffer capacity (configuration and temporal module) to its gene, at least 3 |
| Reasoner.GenomeJudgmentsSucceed | Assets/Scripts/NARS/NARS.cs:300-328 | under the configuration of a genome inside its ranges no judgment throws, because every belief table keeps what is put into it |
| Reasoner.ConfigKeepsDefaults | Assets/Scripts/NARS/NARS.cs:82-90 | the evolved compound confidence and strategy switches never reach the configuration |
| Reasoner.AsWrittenIgnoresGenome | Assets/Scripts/NARS/NARS.cs:62-86 | as written, the temporal module's capacity follows the genome only when the genome agrees with the default (default 10, gene 20: module 10, configuration 20) |
| Reasoner.TemporalCapacity | Assets/Scripts/NARS/NARS.cs:86 | the intended temporal capacity is the configured Event_Buffer_Capacity |
| Reasoner.GeneInput | Assets/Scripts/NARS/NARS.cs:74-78 | a gene becomes an eternal input judgment of its statement and evidence |
| Reasoner.GeneInputs | Assets/Scripts/NARS/NARS.cs:74-79 | one input judgment per gene, in gene order |
| Reasoner.Nars.constructor | Assets/Scripts/NARS/NARS.cs:51-93 | the configuration takes the nine genome parameters, the temporal module takes the intended capacity (see Findings), and the queue holds exactly the gene judgments |
| Reasoner.Nars.SendGenes | Assets/Scripts/NARS/NARS.cs:74-79 | the gene loop queues exactly the gene judgments in order |
| Reasoner.Nars.SendInput | Assets/Scripts/NARS/NARS.cs:854-866 | null queues nothing; otherwise the sentence is marked as input and queued once |
| Reasoner.Nars.ProcessJudgment | Assets/Scripts/NARS/NARS.cs:276-312 | the new state and result are those of Judge: the event enters the temporal module and the belief table; when the table is then empty the judgment throws before any cancellation, otherwise no anticipation of the term is left |
| Reasoner.Nars.Receive | Assets/Scripts/NARS/NARS.cs:284-300 | in a learning mode an event goes into the temporal module; the judgment is put into its concept's belief table |
| Reasoner.Nars.ExecuteOperation | Assets/Scripts/NARS/NARS.cs:835-851 | executing an operation processes a (1.0, 0.99) judgment of it at the current cycle |
| Reasoner.Nars.MotorBabble | Assets/Scripts/NARS/NARS.cs:737-744 | the state and result are those of Babbled |
| Reasoner.Nars.ContinueGoal | Assets/Scripts/NARS/NARS.cs:404-734 | the state and result are those of Continue |
| Reasoner.Nars.Decompose | Assets/Scripts/NARS/NARS.cs:467-669 | for a sequential conjunction the state and result are those of Continue |
| Reasoner.Nars.Elaborate | Assets/Scripts/NARS/NARS.cs:671-730 | for a goal that is not an operation, not achieved and not a conjunction, the state and result are those of Continue |
| Reasoner.Nars.ExplainDrawn | Assets/Scripts/NARS/NARS.cs:686-726 | with explanation links, the state and result are those of Continue |
| Reasoner.Nars.ProcessGoal | Assets/Scripts/NARS/NARS.cs:373-401 | the state and result are those of Admit |
| Reasoner.Nars.ProcessSentence | Assets/Scripts/NARS/NARS.cs:238-273 | the state and result are those of Process |
| Reasoner.Nars.TakeTurn | Assets/Scripts/NARS/NARS.cs:116-125 | the state and result are those of Turn |
| Reasoner.Nars.DrainQueue | Assets/Scripts/NARS/NARS.cs:110-127 | the state and result are those of Drain |
| Reasoner.Nars.WorkingCycle | Assets/Scripts/NARS/NARS.cs:96-142 | the state and result are those of Cycle |
| Reasoner.Nars.Settle | Assets/Scripts/NARS/NARS.cs:130-140 | the state is Settled of the old one |
| Reasoner.Nars.ForgetBeliefs | Assets/Scripts/NARS/NARS.cs:135-139 | every concept's belief table is forgotten by the configured factor, one table at a time |
| Reasoner.Nars.GoalActivation | Assets/Scripts/NARS/NARS.cs:884-896 | 0 for an empty desire table; otherwise the motor activation of the top desire, whose key is the maximum |
| Reasoner.Nars.StoredActivation | Assets/Scripts/NARS/NARS.cs:900-905 | a value exactly when one was stored under the term's string (the source throws otherwise) |
| Reasoner.Nars.SetStoredActivation | Assets/Scripts/NARS/NARS.cs:908-912 | the current goal activation is stored under the term's string, and only there |
| Reasoner.Nars.Explain | Assets/Scripts/NARS/NARS.cs:686-726 | the state and result are those of Explained on the two-premise results |
| Reasoner.ExplainAll | Assets/Scripts/NARS/NARS.cs:700-726 | ok exactly when no result throws; the results before the first one that throws are queued in order, the chain is kept, and the anticipations gain one copy of the sentence's anticipation per queued result that is expected |
| Blocks.BlockName | Assets/Scripts/BlocksWorld.cs:121-125 | the single character 'A' + i, never the table's name |
| Blocks.BlockNameInjective | Assets/Scripts/BlocksWorld.cs:121-125 | distinct indices give distinct names |
| Blocks.StackKeepsTower | Assets/Scripts/BlocksWorld.cs:525-535 | stacking one clear block on another keeps supports acyclic, one block per block, and clear consistent |
| Blocks.UnstackKeepsTower | Assets/Scripts/BlocksWorld.cs:566-583 | moving a clear block to the table keeps the tower well formed |
| Blocks.MoveKeepsWorld | Assets/Scripts/BlocksWorld.cs:497-583 | any legal move keeps the world well formed |
| Blocks.UncoveredClear | Assets/Scripts/BlocksWorld.cs:382-400 | the blocks minus the supports are exactly the clear blocks |
| Blocks.SwapPermutes | Assets/Scripts/BlocksWorld.cs:766 | a swap permutes the list |
| Blocks.ShufflePermutes | Assets/Scripts/BlocksWorld.cs:760-770 | the shuffle is a permutation |
| Blocks.Shuffle | Assets/Scripts/BlocksWorld.cs:760-770 | the in-place Fisher–Yates loop yields the drawn shuffle, a permutation of the input |
| Blocks.MatchesSymmetric | Assets/Scripts/BlocksWorld.cs:406-425 | the match count is symmetric |
| Blocks.MatchesAll | Assets/Scripts/BlocksWorld.cs:406-425 | the count equals the number of blocks exactly when every block matches |
| Blocks.OnTermsComplete | Assets/Scripts/BlocksWorld.cs:681-722 | one on or on-table term per block, in block order |
| Blocks.ClearTermsMembers | Assets/Scripts/BlocksWorld.cs:681-722 | the clear terms are exactly those of the clear blocks |
| Blocks.StateStringAgrees | Assets/Scripts/BlocksWorld.cs:681-722 | worlds whose blocks all match have the same state string |
| Blocks.World.constructor | Assets/Scripts/BlocksWorld.cs:55-80 | names 'A'… for n blocks, a well-formed goal and initial state, goal not reached |
| Blocks.World.GenerateRandomState | Assets/Scripts/BlocksWorld.cs:211-243 | the blocks are placed in the drawn shuffle order, and the k-th goes on the support the k-th draw picks among the table and the still-clear blocks placed before it (the state is the generation function of the draws); the result is a well-formed tower placing exactly the blocks, whose clear set is exactly the uncovered blocks |
| Blocks.World.RecomputeClear | Assets/Scripts/BlocksWorld.cs:382-400 | clear becomes the blocks that support no block |
| Blocks.World.CountMatchingOn | Assets/Scripts/BlocksWorld.cs:406-425 | the counting loop returns the match count |
| Blocks.World.CheckGoalReached | Assets/Scripts/BlocksWorld.cs:724-738 | the latch is set when every block matches the goal, and never reset |
| Blocks.World.Stack | Assets/Scripts/BlocksWorld.cs:499-550 | succeeds exactly when the goal is not reached, the blocks differ, both exist, top is not already on bottom and both are clear; then only on[top] changes, clear is recomputed and the latch checked; otherwise nothing changes |
| Blocks.World.Unstack | Assets/Scripts/BlocksWorld.cs:552-597 | succeeds exactly when the goal is not reached and the block exists, is clear and is not on the table; then only on[b] becomes the table; otherwise nothing changes |
| Blocks.World.GetFitnessForWorldState | Assets/Scripts/BlocksWorld.cs:83-97 | 10 × matches when the state strings agree, otherwise the match count; a reached goal scores the maximum 10 × n |
| Blocks.World.GetCurrentState | Assets/Scripts/BlocksWorld.cs:681-722 | the on terms in block order followed by the clear terms |
| Body.SensationsCount | Assets/Scripts/NARSBody.cs:22-40 | n state terms give n + n(n − 1)/2 sensations |
| Body.SensationsUniform | Assets/Scripts/NARSBody.cs:28-34 | every sensation is an input judgment (1.0, 0.99) at the current cycle |
| Body.SensationsCover | Assets/Scripts/NARSBody.cs:25-37 | every term and every pair i < j of terms is sensed |
| Body.FirstMaxChoice | Assets/Scripts/NARSBody.cs:44-58 | no choice exactly when no activation is at least T and positive; otherwise the chosen one is at least T, maximal among those, and strictly above every earlier candidate |
| Body.Select | Assets/Scripts/NARSBody.cs:44-57 | the argmax loop returns the first-max choice over the goal activations |
| Body.Choose | Assets/Scripts/NARSBody.cs:44-69 | the selection loop and the command decoding give the decision |
| Body.CommandOf | Assets/Scripts/NARSBody.cs:59-69 | a run command comes from a product subject of at least two terms; STACK and UNSTACK follow the predicate's string |
| Body.MotorTermsRead | Assets/Scripts/NARSBody.cs:59-69 | a stack motor term decodes to stack its arguments [1] and [2], and an unstack term to unstack [1] |
| Body.MotorTermsAct | Assets/Scripts/Genomes/NARSGenome.cs:212-224 | every motor term the genome builds decodes to a world command |
| Body.Perform | Assets/Scripts/NARSBody.cs:58-73 | a run command moves only when the world allows it, with the world's effect; a cast failure is an error |
| Body.SendSensations | Assets/Scripts/NARSBody.cs:25-38 | the nested loop queues exactly the sensations in loop order |
| Body.NarsBody.constructor | Assets/Scripts/NARSBody.cs:17-20 | no moves and no states counted |
| Body.NarsBody.Sense | Assets/Scripts/NARSBody.cs:22-40 | the queue gains exactly the sensations of the current state terms |
| Body.NarsBody.MotorAct | Assets/Scripts/NARSBody.cs:42-74 | the chosen command acts on the world exactly when the world allows it, and successful_moves rises only then |
| Body.NarsBody.AddUniqueStateReached | Assets/Scripts/NARSBody.cs:77-80 | the state joins the set of states reached |
| Body.NarsBody.ResetForEpisode | Assets/Scripts/NARSBody.cs:82-86 | the new reasoner is attached and the set of states cleared |
| Body.NarsBody.GetEpisodeFitness | Assets/Scripts/NARSBody.cs:87-90 | the number of distinct states added since the last reset |
| Genomes.DefaultMode | Assets/Scripts/Genomes/NARSGenome.cs:44-79 | under the default mode personality and contingencies evolve, and there is no learning and no random personality |
| Genomes.ModesRelate | Assets/Scripts/Genomes/NARSGenome.cs:47-79 | the mode predicates are memberships in their enum lists, and these relations between them hold for every mode |
| Genomes.Truncate | Assets/Scripts/Genomes/NARSGenome.cs:170-186 | the (int) cast truncates toward zero |
| Genomes.TruncateInt | Assets/Scripts/Genomes/NARSGenome.cs:170-186 | an integer survives the cast |
| Genomes.GetName | Assets/Scripts/Genomes/NARSGenome.cs:150-168 | a name exactly for the 13 indices |
| Genomes.SetChangesOnly | Assets/Scripts/Genomes/NARSGenome.cs:131-186 | Set(i, v) changes only parameter i, to v, truncated for integer parameters |
| Genomes.SetGetIdentity | Assets/Scripts/Genomes/NARSGenome.cs:131-186 | Set(i, Get(i)) leaves the parameters unchanged |
| Genomes.SetFromGet | Assets/Scripts/Genomes/NARSGenome.cs:1552-1568 | copying one parameter from another genome takes its value and changes nothing else |
| Genomes.DefaultParameters | Assets/Scripts/Genomes/NARSGenome.cs:277-312 | the default personality, with every runtime compound switch off |
| Genomes.DefaultInRanges | Assets/Scripts/Genomes/NARSGenome.cs:277-410 | the defaults lie inside the mutation ranges |
| Genomes.MutateInt | Assets/Scripts/Genomes/NARSGenome.cs:427-441 | no mutation keeps the field; a mutation either replaces it by a drawn value or perturbs it, and is clamped into the range: a perturbed value past either end becomes that end, one inside is kept; an in-range field stays in range |
| Genomes.MotorTermsCount | Assets/Scripts/Genomes/NARSGenome.cs:212-224 | n blocks give n² motor terms |
| Genomes.SensoryTermsCount | Assets/Scripts/Genomes/NARSGenome.cs:212-224 | n blocks give n² + n sensory terms |
| Genomes.MotorTermsShaped | Assets/Scripts/Genomes/NARSGenome.cs:212-224 | every motor term is an operation statement on a product led by SELF |
| Genomes.AllowedCount | Assets/Scripts/Genomes/NARSGenome.cs:1393-1433 | the allowed indices and the banned ones below count partition [0, count) |
| Genomes.BannedIndices | Assets/Scripts/Genomes/NARSGenome.cs:1400-1410 | the loop collects exactly the skip indices inside [0, count) |
| Genomes.GetRandomIndexSkippingAll | Assets/Scripts/Genomes/NARSGenome.cs:1393-1433 | None, where the source throws, for count ≤ 0 or when everything is banned; otherwise the drawn allowed index, inside [0, count) and never skipped |
| Genomes.GetRandomIndexSkipping | Assets/Scripts/Genomes/NARSGenome.cs:1435-1451 | None, where the source throws, exactly for count ≤ 0; otherwise an index in [0, count) that is never skip when 0 ≤ skip < count and count > 1 |
| Genomes.MakeEvolvable | Assets/Scripts/Genomes/NARSGenome.cs:86-90 | a belief gene keeps its statement and clamps its evidence |
| Genomes.RemoveAtKeys | Assets/Scripts/Genomes/NARSGenome.cs:1188-1195 | removing one belief removes exactly its key and keeps keys unique |
| Genomes.KeyCount | Assets/Scripts/Genomes/NARSGenome.cs:1504-1518 | with unique keys the key set is as large as the belief list |
| Genomes.MissingIsDifference | Assets/Scripts/Genomes/NARSGenome.cs:1575-1601 | counting beliefs absent from a key set is the size of the set difference |
| Genomes.DistanceIsSymmetricDifference | Assets/Scripts/Genomes/NARSGenome.cs:1575-1601 | the distance is the size of the symmetric difference of the key sets; it is symmetric and 0 exactly for equal key sets |
| Genomes.AdmitAllKeys | Assets/Scripts/Genomes/NARSGenome.cs:1504-1518 | admitting offered beliefs one by one keeps keys unique and keeps exactly the offered keys |
| Genomes.OfferedPartition | Assets/Scripts/Genomes/NARSGenome.cs:1531-1550 | the two offspring are together offered exactly the parents' beliefs |
| Genomes.CrossedParameters | Assets/Scripts/Genomes/NARSGenome.cs:1552-1568 | each crossed parameter comes from the drawn parent |
| Genomes.CrossoverComplementary | Assets/Scripts/Genomes/NARSGenome.cs:1552-1568 | for every parameter the two offspring receive the two parents' values, one each |
| Genomes.Genome.constructor | Assets/Scripts/Genomes/NARSGenome.cs:230-257 | a genome cloned from a personality starts with an empty belief list and key set and exactly that personality |
| Genomes.Genome.AddNewBelief | Assets/Scripts/Genomes/NARSGenome.cs:1504-1518 | a belief with a new statement string is appended and its key recorded; a known string changes nothing |
| Genomes.Genome.RemoveRandomBelief | Assets/Scripts/Genomes/NARSGenome.cs:1188-1195 | an empty list is unchanged; otherwise the drawn belief and its key go |
| Genomes.Genome.CalculateHammingDistance | Assets/Scripts/Genomes/NARSGenome.cs:1575-1601 | the two counting loops give the size of the symmetric difference of the key sets |
| Genomes.Genome.Reproduce | Assets/Scripts/Genomes/NARSGenome.cs:1520-1573 | offspring beliefs are the admitted offers, or empty when contingencies do not evolve; offspring personalities are the complementary crossovers, or fresh when personality does not evolve |

## Left out

- Floating point: every `float` is a real. The forgetting factor 2^(−1/rate), the
  time-decayed value and revision are engine functions.
- Exceptions: failed casts and out-of-range indexes become `ok = false`
  (outcomes of the reasoner, Body.Perform) or `None` (index draws, stored
  activations), and the handlers stop there as the source does.
- `Parallel.ForEach` (NARS.cs:135): the per-concept forgetting runs one
  concept after another. The tables are independent, so the result is the same.
- Global buffer ties: equal-priority items leave the buffer's queue in arrival
  order. The source's PriorityQueue heap (Buffers.cs:14) does not fix that order.
- `ItemContainer`: its key lookup and the buffer's keyed `peek(key)`
  (Buffers.cs:33-46) are not modelled, because `ItemContainer` is not part of this model.
- Tables.Table.Forget: the model rebuilds the table from decayed copies. The source
  scales the Sentence object's confidence in place (Other.cs:116), so any other
  holder of the same sentence object also sees the decay. That aliasing is not modelled.
- Blocks.World.constructor: `Initialize`, `GenerateNonFlatGoal` and
  `GenerateFarInitialFromGoal` (BlocksWorld.cs:55-118, 432-486) are not modelled.
  - The goal is one random state, so it may be flat. The source redraws until
    some block is not on the table.
  - With fewer than two blocks the source's redraw loop never ends.
  - `GenerateFarInitialFromGoal` is a 100000-try random search.
  - The constructor states only that its two states are well formed. Each is
    the generation function of its draws, which GenerateRandomState states.
- Engine: `explanationCount`, `randomExplanation`, `decayedConfidence` and
  `motorActivation` are fixed functions of their arguments for a whole run.
  - Memory never gains explanation links during a run, so the links that
    NARS.cs:673-686 counts and draws from do not grow as the reasoner learns.
  - A queued goal's decayed confidence (NARS.cs:119) does not change from one cycle to the next.
  - Motor activation (NARS.cs:890) does not depend on the reasoner's state.
- Reasoner.Nars.WorkingCycle, Reasoner.Nars.Settle, Reasoner.Nars.ForgetBeliefs: they
  require the forgetting factor in (0, 1), the range of 2^(−1/rate) for a positive rate;
  the other parts of the model need no such premise.
- Reasoner.Capacity: a negative capacity, which no genome produces, is read as 0;
  the source throws instead (Buffers.cs:82, Other.cs:99-101).
- Memory: concepts are a total map that never evicts. `MEMORY_CONCEPT_CAPACITY`
  and the concept bag's eviction are not modelled.
- Reasoner.Nars.ProcessJudgment: memory always yields a concept, so the
  early return when the concept lookup gives null (NARS.cs:294-295) does not occur.
- Reasoner.Nars.constructor: it requires every gene to be a statement with a compound
  subject. The source's cast (NARS.cs:76) throws on any other gene.
- Terms: terms are built directly as values rather than parsed with
  `Term.from_string` (Terms.IsOp, the Blocks on/clear terms, Genomes.StackTerm).
- Body.MotorTermsAct: it assumes the engine's term strings of the atoms are
  their names (`AtomStrings`), since term printing is not modelled.
- Inference: `TryGetCompoundTerm`, the inference rules and question answering
  are engine functions. A question's inference results are discarded, so
  questions leave no trace.
- Draining: a derived item can be taken in the same cycle when its priority
  puts it ahead of items still waiting. The loop takes exactly as many items
  as were queued at the start, as NARS.cs:110-127 does.
- Configuration: `Compound_Confidence` and the `RuntimeCompounds` switches are
  not copied from the genome, as in NARS.cs:82-90. Temporal chaining therefore
  uses the defaults.
- Bags.Bag: `strengthen_item_priority` and `decay_item` (Bag.cs:176-215) are not
  modelled; they depend on operators that are not part of this model.
- Unused fields: `remaining_life`, `timesteps_alive` and `total_fitness` are not modelled.
- Tables: the class comment says the table purges the lowest-confidence items,
  but the trim loop removes position 0, which is the highest key. The model
  follows the code (Tables.TrimmedDropsHighest).
- Genomes.Genome.constructor: the random initial beliefs (NARSGenome.cs:233-243) and the random
  personality (NARSGenome.cs:259-274) are not modelled. Cloned beliefs are added afterwards by AddNewBelief.
- Genome operations that depend on the unknown term parser are not modelled:
  `MutateCompound`, `ToggleVariableRandomBelief`, `ModifyRandomBelief`,
  `Variabilize`/`ConcretizeSensoryStatement` and `CreateContingencyStatement`.
  Neither are the Box–Muller perturbation and the random personality set-up.
- Unity and I/O: logging, layout, colours, `BlocksWorldGridManager` and file
  output are not modelled.

## Findings

| source | as written | input that shows it | evidently intended | confidence | as-written member | corrected member |
|---|---|---|---|---|---|---|
| Assets/Scripts/NARS/NARS.cs:62 | the temporal module is built with the default `EVENT_BUFFER_CAPACITY` before `SetupUsingGenome` (NARS.cs:86) copies the genome's `Event_Buffer_Capacity` into the configuration, and the module's capacity is read-only (Buffers.cs:75) | default capacity 10 and gene 20: the module keeps 10 events while the configuration says 20 | the evolved Event_Buffer_Capacity bounds the temporal chain | not executed | Reasoner.TemporalCapacityAsWritten, Reasoner.AsWrittenIgnoresGenome | Reasoner.TemporalCapacity, Reasoner.Nars.constructor |
