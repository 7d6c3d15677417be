# Hannibal's emulators, modelled and proved

`emu-service` is one process that stands in for a message broker, a document
database, a cache and a SQL server behind a layer that injects faults;
`rce-service` installs the packages a lesson needs. This project models the
stateful cores of both in Dafny and proves what they promise: over every run of
operations, every input, or every interleaving of steps.

The source's objects that change in place are classes here, with methods and
loops shown equal to a function of the old state; the results are then proved
about those functions. The straight-line methods among them have no row below. Where a natural statement is false of the code, the code is kept, a
concrete input shows the failure, and the statement is proved to hold exactly
when a condition on the input does.

| module | what it is about |
|---|---|
| `Common` | an optional value and decimal digits |
| `Routing` | topic patterns, bindings, destinations |
| `Broker`, `BrokerOps` | the broker's state and every operation on it |
| `BrokerRoutes` | which queues a message reaches, by what was declared and bound |
| `BrokerMeaning` | what each operation leaves and answers, field by field |
| `BrokerConservation` | no copy of a message is lost or made up; the counters are never stale |
| `BrokerFairness`, `BrokerWork` | round robin, prefetch, work conservation |
| `BrokerStall`, `BrokerLimits`, `BrokerRuns` | exactly when a settlement leaves work undone and what a close leaves listed, with runs that show both |
| `BrokerOrder` | first in first out, and a refused batch restored in order |
| `BrokerBackend` | the broker's own methods and loops |
| `Bson`, `BsonOrder` | MongoDB's order on values, and which way it goes |
| `DocReach` | the values a dotted path reaches |
| `DocQuery`, `DocUpdate`, `DocStore`, `DocFind`, `DocPaging` | filters, updates, writes, windows and pipelines, cursors |
| `DocMeaning`, `DocSelection` | what the commands store, rewrite, remove and find, and in which order |
| `DocIdentifiers`, `DocClear` | unique identifiers: exactly which updates keep them, and which a client can see to be safe |
| `TxMirror` | the wire session and the SQL executor keep one transaction state between them |
| `TxData` | what COMMIT, ROLLBACK, statements and faults do to the data |
| `SqlScan` | the SQL scanner and the placeholder rewrite |
| `AmqpWire`, `AmqpContent` | frames, and a message cut into frames and put together again |
| `Rules`, `RulesHalves`, `RulesCounting` | fault rules, their counters and the verdict they compose |
| `RulesVerdict` | what each field of a verdict says, and when a rule applies and acts |
| `InstallQueue`, `InstallSafety` | the install queue as interleaved steps |
| `KvSpace`, `KvExpiry`, `KvLaws`, `KvMeaning`, `KvStrings`, `KvCache` | the cache's key space with lazy expiry, and what its commands leave and answer |
| `Glob`, `GlobSpelling` | the cache's key patterns, matched, and written and read back |

Things found on the way, each stated by a member below:

- Consumers are dropped by tag alone, so of two connections with the same tag on
  one queue the closing one takes the other's consumer off the list and leaves its
  own (`BrokerRuns.TwinsClosed`; exactly when: `BrokerLimits.CloseExact`,
  `BrokerLimits.CloseSparesExactly`).
- Acknowledging on a channel that also consumes from another queue can leave that
  queue's messages waiting in front of a consumer with room
  (`BrokerRuns.SharedChannelStalls`; exactly when: `BrokerStall.SettleStallsExactly`).
- A NaN equals every number, so an update that stores one in `_id` can make two
  identifiers equal, also when it comes from adding opposite infinities
  (`DocIdentifiers.NanSetRun`, `DocIdentifiers.InfinitiesRun`; exactly when:
  `DocIdentifiers.KeepsUniqueExactly`, `DocIdentifiers.NanIdExact`).
- A content header is never split, so a message whose properties do not fit one
  frame cannot be delivered over a connection with a small frame maximum, though
  a publisher on another connection could send it (`AmqpContent.ContentRoundTrip`).
- A delay of 9223372036855 milliseconds wraps to a negative duration; the next
  delay rule then acts as well (`RulesCounting.LongDelaysBothAct`; exactly when:
  `RulesCounting.ShadowedExactly`).
- `TTL` of a key whose deadline is almost as far off as a duration can say
  answers a negative number (`KvLaws.TtlExactly`, `KvLaws.LongestTtlWraps`).
- A seed may install an empty list, and exactly then a pop indexes outside it
  (`KvLaws.NeverPanicsExactly`). The comment at
  `emu-service/internal/kv/collections.go:131-132` says a list is never present
  and empty; the model follows the code.
- `BEGIN` inside a block can make the status the client is told differ from the
  transaction's (`TxMirror.FaultedBeginDiverges`; exactly when:
  `TxMirror.MirrorExact`, `TxMirror.RunMirrorExact`).

## Model

| member | source | states |
|---|---|---|
| `Routing.SplitJoin` | emu-service/internal/queues/routing.go:131-133 | cutting a routing key at its dots loses nothing: the words join to the key |
| `Routing.JoinSplit` | emu-service/internal/queues/routing.go:131-133 | words without dots are what their joined key splits into |
| `Routing.WordsMatchExact` | emu-service/internal/queues/routing.go:135-150 | the topic matcher accepts exactly the keys that can be cut into one part per pattern word, a star taking one word and a hash any number |
| `Routing.Reached` | emu-service/internal/queues/routing.go:92-122 | the destinations hold each queue with a matching binding exactly once, and no other |
| `Routing.UnbindAll` | emu-service/internal/queues/routing.go:124-129 | unbinding drops exactly the bindings to the queue |
| `Routing.UnboundIsUnreached` | emu-service/internal/queues/routing.go:92-129 | an unbound queue is reached by no key, and every other queue by the same keys as before |
| `BrokerRoutes.RoutesExactly` | emu-service/internal/queues/routing.go:53-150 | after every run a message reaches by an exchange exactly the queues with a standing binding that takes it, said of the kind name first declared and the key bound: fanout any key, direct the very key, topic a key whose words fit; the default exchange reaches the queue of that name alone |
| `BrokerRoutes.ExchangesStay` | emu-service/internal/queues/routing.go:53-90 | no operation but a declaration, a binding and a deletion touches the exchanges |
| `BrokerRoutes.DeclareExchangeMeans` | emu-service/internal/queues/routing.go:53-75 | only a new name of a known kind makes an exchange, one without bindings; every other declaration changes nothing and is answered or refused with its code |
| `BrokerRoutes.BindMeans` | emu-service/internal/queues/routing.go:77-90 | a binding goes behind those the exchange has; without the queue or the exchange, or on the default one, it is refused |
| `Broker.RingIsRemainder` | emu-service/internal/queues/queues.go:212-221 | the turn arithmetic of the model is the remainder the round robin takes |
| `Broker.HandOut` | emu-service/internal/queues/exec.go:310-335 | handing out takes the head of one queue only, and never takes away or renames a held delivery |
| `Broker.Dispatch` | emu-service/internal/queues/queues.go:198-208 | a dispatch leaves every other queue, every consumer list and every delivery already held alone |
| `Broker.Give` | emu-service/internal/queues/exec.go:296-308 | releasing a delivery takes that tag, and no other, out of the connection's hands |
| `Broker.Selected` | emu-service/internal/queues/exec.go:274-294 | a multiple acknowledgement names exactly the held tags of the channel up to the tag (all of them for zero), highest first |
| `BrokerOps.Fullest` | emu-service/internal/queues/queues.go:116-127 | the gauges reported are those of a reached queue with the most waiting messages |
| `BrokerOps.NamedAreHeld` | emu-service/internal/queues/exec.go:257-294 | every tag an acknowledgement goes on to settle is a held one, named once |
| `BrokerOps.StepLinked` | emu-service/internal/queues/exec.go:53-89 | every operation keeps tags issued, owners present, names and bindings pointing at queue objects |
| `BrokerConservation.StepBalanced` | emu-service/internal/queues/exec.go:53-163 | every operation keeps each queue's account of its copies and both kinds of counters |
| `BrokerConservation.Conservation` | emu-service/internal/queues/exec.go:98-335 | after every run, with any number of connections, the copies of a message ever enqueued on a queue object are those waiting, held, settled, delivered without acknowledgement or discarded |
| `BrokerConservation.CountersExact` | emu-service/internal/queues/exec.go:296-321 | after every run the unacked gauge and each channel's outstanding count equal the held deliveries, and every held tag was issued |
| `BrokerFairness.NextIsFirstWithRoom` | emu-service/internal/queues/queues.go:212-221 | the round robin picks the first consumer with room counting from the turn, and leaves the turn behind it; it gives up only when all of them are full |
| `BrokerFairness.DispatchDrains` | emu-service/internal/queues/queues.go:198-221 | after a dispatch the queue is empty or no consumer of it has room |
| `BrokerFairness.DispatchKeepsDrained` | emu-service/internal/queues/queues.go:198-221 | a dispatch of one queue leaves no work undone on another that had none |
| `BrokerFairness.PrefetchRespected` | emu-service/internal/queues/exec.go:323-340 | whatever the operation, unless it is a pull on that channel, no channel's outstanding count ends above both its non-zero prefetch and what it was |
| `BrokerWork.StepGood` | emu-service/internal/queues/exec.go:53-163 | every operation of clients that keep a channel to one queue and tags distinct leaves no ready message in front of a consumer with room |
| `BrokerWork.WorkConservation` | emu-service/internal/queues/exec.go:210-269 | after every such run no queue has both a waiting message and a consumer with room |
| `BrokerStall.DispatchFills` | emu-service/internal/queues/queues.go:198-221 | whether a dispatch takes a channel's last place is decided by one walk around the ring of consumers: full ones passed over, those that do not acknowledge taking a message each, until one that acknowledges on the channel is reached |
| `BrokerStall.SettleStallsExactly` | emu-service/internal/queues/exec.go:257-269 | settling one delivery, acknowledged or requeued, in any state without work undone leaves work undone if and only if it opens the channel's only place, another queue waits with a consumer on the channel, and the dispatch of the source does not take the place again |
| `BrokerStall.AckRefillsExactly` | emu-service/internal/queues/exec.go:257-269 | where all consumers of the source on the channel acknowledge, the place is taken again exactly when the source has a message waiting and a consumer on the channel |
| `BrokerRuns.SharedChannelStalls` | emu-service/internal/queues/exec.go:257-269 | a run from the empty broker to a channel shared by two queues, whose acknowledgement leaves a message waiting in front of a consumer with room |
| `BrokerRuns.TwinsClosed` | emu-service/internal/queues/queues.go:230-238 | a run from the empty broker to two connections under one tag; closing the second drops the first's consumer and leaves its own listed |
| `BrokerLimits.WithoutExact` | emu-service/internal/queues/queues.go:230-238 | dropping a set of tags takes a connection off a list exactly when each of its consumers is the first under its tag |
| `BrokerLimits.CloseExact` | emu-service/internal/queues/exec.go:98-114 | a closed connection is on no list if and only if its consumers could be told apart by tag; then nothing is left in its hands |
| `BrokerLimits.CloseSparesExactly` | emu-service/internal/queues/exec.go:98-114 | a close leaves the consumers of all other connections listed, in order, if and only if for each tag it has on a queue the first listed under it there is its own |
| `BrokerLimits.TwinsInseparable` | emu-service/internal/queues/queues.go:230-238 | at the end of the run to two connections under one tag, neither condition holds of the second |
| `BrokerOrder.DispatchInOrder` | emu-service/internal/queues/queues.go:198-208 | a dispatch writes out the waiting messages from the head, in order, and leaves the rest |
| `BrokerOrder.RefusedBatchReturns` | emu-service/internal/queues/exec.go:184-318 | any number of pulls on an idle channel, all refused with requeue, restore the order of the queue with the returned messages marked redelivered |
| `BrokerOrder.MarkedMeaning` | emu-service/internal/queues/queues.go:226-228 | a returned message differs from the one taken only in its redelivered mark |
| `BrokerOrder.PublishToRecords` | emu-service/internal/queues/queues.go:184-196 | a publish gives each reached queue exactly one copy, and no other queue any |
| `BrokerOrder.SettleAllRecords` | emu-service/internal/queues/exec.go:257-269 | an acknowledgement settles exactly the copies it names; a refusal that requeues settles none |
| `BrokerOrder.CloseSettlesNothing` | emu-service/internal/queues/exec.go:98-114 | a closing connection settles no copy: every delivery in its hands goes back to its queue |
| `BrokerMeaning.PublishFlows` | emu-service/internal/queues/queues.go:184-208 | of each queue, what was written out of it followed by what waits now is what waited before followed by the message, if the queue is reached |
| `BrokerMeaning.PublishMeans` | emu-service/internal/queues/exec.go:171-182 | refused only for a missing exchange; otherwise the message goes behind all that waited on each reached queue, and the answer is how many, with the gauges of a fullest one |
| `BrokerMeaning.FullestIsFirst` | emu-service/internal/queues/queues.go:116-127 | of the queues with the most waiting the first reached is the one whose gauges are told |
| `BrokerMeaning.GetMeans` | emu-service/internal/queues/exec.go:184-208 | a pull answers the head of the queue under the next tag, held unless no acknowledgement is owed, or says that nothing waits, or that there is no such queue |
| `BrokerMeaning.PushMeans` | emu-service/internal/queues/exec.go:323-335 | what a push writes out is the head of the queue, under the tag the connection then holds it by |
| `BrokerMeaning.ConsumeMeans` | emu-service/internal/queues/exec.go:210-233 | the consumer is listed last on its queue and registered under the tag sent or generated, then the queue is dispatched; a tag in use is refused |
| `BrokerMeaning.CancelMeans` | emu-service/internal/queues/exec.go:235-243 | the first consumer of the tag goes off its queue and the tag off the connection, and no message moves |
| `BrokerMeaning.DropConsumerLoses` | emu-service/internal/queues/queues.go:230-238 | the list loses its first consumer of the tag, and the turn starts again only if it had one |
| `BrokerMeaning.QosMeans` | emu-service/internal/queues/exec.go:245-255 | the limit holds for its channel; every other limit and every delivery in hand stays |
| `BrokerMeaning.SettleMeans` | emu-service/internal/queues/exec.go:257-308 | refused only for one tag that is not held; otherwise exactly the deliveries it speaks of, one tag or the channel's up to it, leave the connection's hands |
| `BrokerMeaning.DeclareQueueMeans` | emu-service/internal/queues/queues.go:145-166 | a queue there is answered as it is; a new one is empty, under the name sent or generated; a passive declaration of none is refused |
| `BrokerMeaning.PurgeMeans` | emu-service/internal/queues/exec.go:145-155 | the waiting messages go and are counted; deliveries in hand, consumers and other queues stay |
| `BrokerMeaning.DeleteMeans` | emu-service/internal/queues/queues.go:168-182 | the name, the waiting messages and the consumers go, each off its owner's register; deliveries in hand and other queues stay |
| `BrokerBackend.Walk` | emu-service/internal/queues/queues.go:212-221 | the loop over the ring finds the taker and the turn the specification names |
| `BrokerBackend.Backend.Dispatch` | emu-service/internal/queues/queues.go:198-208 | the loop ends in the state the specification names |
| `BrokerBackend.Backend.Destinations` | emu-service/internal/queues/routing.go:92-111 | the loop collects the destinations, the default exchange included |
| `BrokerBackend.Backend.Publish` | emu-service/internal/queues/queues.go:184-196 | the new state and reply, the missing exchange included |
| `BrokerBackend.Backend.DropConsumer` | emu-service/internal/queues/queues.go:230-238 | the first consumer under the tag goes, whoever owns it, and the turn starts again |
| `BrokerBackend.Backend.SelectTags` | emu-service/internal/queues/exec.go:274-294 | collecting from the unordered map and sorting gives the named tags, highest first |
| `BrokerBackend.Backend.Settle` | emu-service/internal/queues/exec.go:257-269 | the new state and reply, although a dispatch inside the loop hands out more |
| `BrokerBackend.Backend.Qos` | emu-service/internal/queues/exec.go:245-255 | the new limit, a dispatch of every queue consumed, in some order of the map, and the reply |
| `BrokerBackend.Backend.Close` | emu-service/internal/queues/exec.go:98-114 | consumers dropped, deliveries given back and queues dispatched, each in some order of its map |
| `BrokerBackend.Backend.Delete` | emu-service/internal/queues/queues.go:168-179 | name, bindings, consumers and waiting messages go; deliveries held from the queue stay |
| `Bson.CompareDocuments` | emu-service/internal/docstore/values.go:157-167 | the loop over fields is the recursive order: key, value, then the shorter first |
| `Bson.CompareArrays` | emu-service/internal/docstore/values.go:169-176 | the loop over items is the recursive order |
| `Bson.CompareIntExact` | emu-service/internal/docstore/values.go:203-203 | the wrapping subtraction orders two 64-bit integers if and only if their difference fits in one |
| `Bson.CompareFloatExact` | emu-service/internal/docstore/values.go:192-201 | float comparison is transitive at three values if and only if the middle one is not a NaN between two out of order |
| `Bson.CompareIsTotalPreorder` | emu-service/internal/docstore/values.go:75-221 | on nested values without NaN and with dates whose differences fit 64 bits, the order is reflexive, sign-antisymmetric and transitive |
| `Bson.EqualIsEquivalence` | emu-service/internal/docstore/values.go:112-117 | equality is reflexive and symmetric on all values, and transitive through any value that holds no NaN, however far apart its dates |
| `Bson.StandsInExactly` | emu-service/internal/docstore/values.go:112-117 | whatever equals a value equals also an equal one it took the place of, if and only if it has no NaN where the other has a number |
| `BsonOrder.TypesInOrder` | emu-service/internal/docstore/values.go:40-117 | values of different types are ordered by MongoDB's sequence of types, and never equal |
| `BsonOrder.TextMeans` | emu-service/internal/docstore/values.go:75-110 | a text is before another if and only if it begins it or has the smaller character where they first differ |
| `BsonOrder.WithinTypes` | emu-service/internal/docstore/values.go:75-221 | numbers by size, infinities at the ends, false before true, dates and timestamps by time |
| `BsonOrder.FieldsMean` | emu-service/internal/docstore/values.go:157-167 | documents by the first field that differs, its name before its value |
| `BsonOrder.FieldsPrefix` | emu-service/internal/docstore/values.go:157-167 | a document that begins another comes before it, and one of equal fields is level |
| `BsonOrder.ItemsMean` | emu-service/internal/docstore/values.go:169-176 | arrays by the first item that differs, a shorter one before any it begins |
| `DocReach.AtoiSpells` | emu-service/internal/docstore/values.go:248-259 | a path segment is an index exactly when it spells that number |
| `DocReach.ResolveExact` | emu-service/internal/docstore/values.go:227-259 | a value is reached if and only if a trail leads to it: into the first field of the name, to the item of the index, or to a document of an array with the path unspent |
| `DocReach.ValuesAtExact` | emu-service/internal/docstore/values.go:261-266 | a dotted path of a document reaches exactly the values of such trails |
| `DocReach.ResolveReads` | emu-service/internal/docstore/values.go:227-246 | through documents alone it reaches the one value an update would read |
| `DocQuery.FlagsExact` | emu-service/internal/docstore/query.go:255-261 | the regex flags of a condition are the text of its first `$options`, or none |
| `DocQuery.Any` | emu-service/internal/docstore/query.go:112-126 | the early-exit loop tests every value, and every item of an array value |
| `DocQuery.Membership` | emu-service/internal/docstore/query.go:187-205 | the loop over listed values stops at the first that matches or fails |
| `DocQuery.Match` | emu-service/internal/docstore/query.go:22-30 | the loop over conditions stops at the first that does not hold or fails |
| `DocQuery.Logical` | emu-service/internal/docstore/query.go:59-77 | the loop over branches of `$and` and `$or` stops at the first that decides |
| `DocQuery.MatchesExact` | emu-service/internal/docstore/query.go:22-253 | for every supported filter the early-exit evaluator answers what the filter means: for-all over conditions, exists over the values that trails along a path lead to |
| `DocQuery.AnyValueExact` | emu-service/internal/docstore/query.go:112-126 | a test holds of some value or array item if and only if the walk finds one |
| `DocQuery.GteExactly` | emu-service/internal/docstore/query.go:172-185 | `$gte` is `$gt` or `$eq` if and only if it is not null asked of a path that reaches nothing |
| `DocQuery.Complements` | emu-service/internal/docstore/query.go:138-253 | `$ne`, `$nin` and `$not` answer the opposite of what they negate, or fail with it |
| `DocQuery.OperatorRefused` | emu-service/internal/docstore/query.go:138-253 | an unknown operator and an operand of the wrong kind are refused with their codes, whatever the values |
| `DocQuery.LogicalRefused` | emu-service/internal/docstore/query.go:59-101 | so are an unknown top-level operator and branches that are none, or no documents |
| `DocQuery.RegexRefused` | emu-service/internal/docstore/query.go:222-308 | so is an expression of another type, one with options given twice or unknown, and one that does not compile |
| `DocUpdate.SetThenRead` | emu-service/internal/docstore/update.go:162-196 | reading a path after a successful set gives the value |
| `DocUpdate.SetElsewhere` | emu-service/internal/docstore/update.go:162-196 | a set leaves every path that is neither above nor below it alone |
| `DocUpdate.UnsetThenRead` | emu-service/internal/docstore/update.go:198-222 | after an unset the path is absent |
| `DocUpdate.UnsetElsewhere` | emu-service/internal/docstore/update.go:198-222 | an unset leaves every unrelated path alone |
| `DocUpdate.SetKeepsOrder` | emu-service/internal/docstore/update.go:187-196 | the fields a document has keep their order, and at most one is appended |
| `DocUpdate.SetSame` | emu-service/internal/docstore/update.go:162-196 | setting a path to what it holds gives the very same document |
| `DocUpdate.SetFailsExactly` | emu-service/internal/docstore/update.go:162-185 | a set fails if and only if the path runs through a value that is not a document |
| `DocUpdate.RunOperator` | emu-service/internal/docstore/update.go:62-81 | the loop over an operator's fields threads the document through, and stops at the first failure |
| `DocUpdate.RunUpdate` | emu-service/internal/docstore/update.go:24-60 | shape check, replacement or operators in order |
| `DocUpdate.SetTwice` | emu-service/internal/docstore/update.go:24-41 | a `$set` of unrelated paths applied to its own result changes nothing |
| `DocMeaning.SetAndUnsetMean` | emu-service/internal/docstore/update.go:24-92 | an update of one `$set` leaves the value at its path or fails where the path is blocked, one of `$unset` leaves nothing there, and both leave unrelated paths |
| `DocMeaning.IncMeans` | emu-service/internal/docstore/update.go:94-112 | an update of one `$inc` leaves the sum where a number was, the amount where nothing was, and fails on anything else |
| `DocMeaning.UpdatesInOrder` | emu-service/internal/docstore/update.go:24-41 | an update of several operators is the later made of what the earlier leave, and fails with the first that does |
| `DocMeaning.PathsInOrder` | emu-service/internal/docstore/update.go:62-81 | and so are the paths of one operator |
| `DocMeaning.ShapeRefused` | emu-service/internal/docstore/update.go:24-81 | fields beside operators, an unknown operator and one without a document are refused with their codes |
| `DocMeaning.InsertMeans` | emu-service/internal/docstore/docstore.go:158-204 | refused exactly when an equal identifier is there; otherwise one document is appended: `_id` first, sent or minted, then every other field sent, with its value and in its order |
| `DocMeaning.ReplaceMeans` | emu-service/internal/docstore/update.go:226-236 | the old `_id` first, then the replacement's other fields in their order |
| `DocMeaning.EqualityFieldsSet` | emu-service/internal/docstore/update.go:252-268 | an upsert starts from the filter's conditions that are equalities, in order, each set |
| `DocMeaning.UpsertMeans` | emu-service/internal/docstore/update.go:238-268 | the equality fields set on nothing, the update made of that, and the identifier put first; fails with either |
| `DocStore.SelectForAscends` | emu-service/internal/docstore/write.go:126-142 | the selected positions exist and ascend, which deleting from the back relies on |
| `DocSelection.FindMeans` | emu-service/internal/docstore/docstore.go:142-156 | a find answers exactly the matching documents in the order of the collection, and fails if and only if one cannot be decided |
| `DocSelection.SelectForMeans` | emu-service/internal/docstore/write.go:126-142 | the positions of all that match, or of the first alone |
| `DocSelection.SelectForFails` | emu-service/internal/docstore/write.go:126-142 | it fails exactly at a document that cannot be decided, before any match where one is enough |
| `DocSelection.UpdateMeans` | emu-service/internal/docstore/write.go:21-61 | the whole update: every match rewritten or the first alone, an upsert where there is none, nothing at all where a document cannot be decided; and its counts |
| `DocSelection.RewriteMeans` | emu-service/internal/docstore/write.go:63-98 | the selected documents become what the update makes of them, in order, up to the first that refuses it |
| `DocSelection.RewriteCounts` | emu-service/internal/docstore/write.go:63-85 | matched are all that were selected, modified those left different |
| `DocSelection.RefusalMeans` | emu-service/internal/docstore/write.go:87-98 | a document is refused with the update's own failure, or because `_id` would change |
| `DocSelection.OrderedMeans` | emu-service/internal/docstore/executor.go:73-100 | an ordered batch stores every document up to the first whose identifier is there, and nothing after it |
| `DocSelection.UnorderedMeans` | emu-service/internal/docstore/executor.go:73-100 | an unordered batch goes on after a refusal |
| `DocSelection.RemoveOneMeans` | emu-service/internal/docstore/write.go:100-124 | a delete of one takes the first match and no other |
| `DocIdentifiers.InsertUnique` | emu-service/internal/docstore/docstore.go:158-171 | an insert keeps identifiers unique whatever values are sent |
| `DocIdentifiers.ReplaceUnique` | emu-service/internal/docstore/write.go:63-98 | an equal identifier with no NaN where there was a number may replace another, in any collection |
| `DocIdentifiers.KeepsUniqueExactly` | emu-service/internal/docstore/write.go:63-98 | an update keeps identifiers unique in every collection if and only if there is no document on which it is stored with a NaN in `_id` where there was a number |
| `DocIdentifiers.IdentifiersUnique` | emu-service/internal/docstore/docstore.go:158-181 | after every run of inserts, such updates, replacements, upserts, deletes and drops, batches that fail midway included, no two documents have equal identifiers; nothing else is asked of any value |
| `DocIdentifiers.NanIdExact` | emu-service/internal/docstore/write.go:78-98 | rewriting a number to NaN in `_id` passes the check, and what `rewrite` then leaves is unique if and only if it stored nothing or no other identifier is a number |
| `DocIdentifiers.NanSetRun` | emu-service/internal/docstore/write.go:63-98 | a run that sets `_id` to NaN together with another field ends with two equal identifiers |
| `DocIdentifiers.InfinitiesRun` | emu-service/internal/docstore/update.go:94-119 | a run that adds opposite infinities in `_id`, in which nobody sends a NaN, ends with two equal identifiers |
| `DocIdentifiers.SetAgainUnmodified` | emu-service/internal/docstore/write.go:63-85 | a `$set` of unrelated paths sent again to the documents it selected matches all of them and modifies none, also where the first one compared equal and was not stored |
| `DocClear.ClearIsSharp` | emu-service/internal/docstore/update.go:24-119 | an update that neither sets a value holding a NaN at or below `_id` nor adds a NaN or an infinity there has no NaN in `_id` where there was a number, on any document |
| `DocClear.ClearRunUnique` | emu-service/internal/docstore/write.go:21-98 | after every run whose updates are all of that kind no two documents have equal identifiers |
| `DocFind.Aggregate` | emu-service/internal/docstore/pipeline.go:55-78 | the loop over stages is the composition of the stages, and stops at the first failure |
| `DocFind.CountsAgree` | emu-service/internal/docstore/pipeline.go:80-154 | `count`, the counting pipeline and the length of the windowed `find` agree for every filter and non-negative skip and limit, and fail together |
| `DocSelection.StagesMean` | emu-service/internal/docstore/pipeline.go:99-131 | `$count` answers one document with how many came in; `$skip` and `$limit` take a number not negative and drop its fraction |
| `DocFind.DeleteAllExact` | emu-service/internal/docstore/write.go:100-124 | the backward in-place loop removes exactly what a find selects and keeps the rest in order |
| `DocFind.FoundAndKept` | emu-service/internal/docstore/docstore.go:142-156 | found and kept together are the collection, and a second find selects nothing |
| `DocFind.CompareByConsistent` | emu-service/internal/docstore/find.go:209-243 | three documents are never ordered in a circle by any keys and directions |
| `DocFind.SortIsTotalPreorder` | emu-service/internal/docstore/find.go:209-243 | the multi-key, directional comparator is a total preorder |
| `DocSelection.WindowMeans` | emu-service/internal/docstore/find.go:95-105 | a window skips from the front and then holds its limit, or all there are |
| `DocSelection.SortKeyMeans` | emu-service/internal/docstore/find.go:230-236 | a sort key is the value the path reads, or one it reaches, or null |
| `DocSelection.CompareByMeans` | emu-service/internal/docstore/find.go:209-243 | the first key that tells two documents apart decides: the smaller first, or last where it descends |
| `DocSelection.SumMeans` | emu-service/internal/docstore/update.go:114-135 | whole numbers add exactly where 64 bits hold the sum; a float makes a float, with infinities and NaN as IEEE has them |
| `DocSelection.IncrementMeans` | emu-service/internal/docstore/update.go:94-112 | the sum where a number was, the amount where nothing was, every unrelated path as it was, and a failure on anything else |
| `DocFind.Collection.Locate` | emu-service/internal/docstore/docstore.go:173-181 | the first position with an equal identifier, or that there is none |
| `DocFind.Collection.InsertOne` | emu-service/internal/docstore/docstore.go:158-171 | the document stored with its identifier first, or refused with nothing changed |
| `DocFind.Collection.Select` | emu-service/internal/docstore/write.go:126-142 | the positions of the matching documents, the first only unless all are wanted |
| `DocFind.Collection.RewriteEach` | emu-service/internal/docstore/write.go:63-85 | the documents rewritten in place up to a failure, and the counts |
| `DocFind.Collection.DeleteEach` | emu-service/internal/docstore/write.go:100-124 | the loop from the last position to the first deletes exactly the positions |
| `DocFind.Collection.RemoveMatching` | emu-service/internal/docstore/write.go:100-124 | the whole delete, one or all, and its count or failure |
| `DocPaging.LivePageIsNonempty` | emu-service/internal/docstore/find.go:133-168 | a getMore on an open cursor hands over at least one document, after any run |
| `DocPaging.IdsNeverReused` | emu-service/internal/docstore/find.go:109-131 | a new cursor's number is above every one given before, a dropped database in between included |
| `DocPaging.PagingRefines` | emu-service/internal/docstore/find.go:109-196 | for every sequence of batch sizes and commands that spare the cursor, first batch, pages and what is still held are the full result in order |
| `DocPaging.FirstPageMeans` | emu-service/internal/docstore/find.go:109-131 | the first page holds the batch size or all, and leaves a cursor exactly for a rest |
| `DocPaging.NextPageMeans` | emu-service/internal/docstore/find.go:133-168 | the next page holds what is asked or all that is left; the cursor keeps the rest or is closed |
| `DocPaging.Store.FirstBatch` | emu-service/internal/docstore/find.go:109-131 | the first batch, and a cursor for the rest if there is any |
| `DocPaging.Store.NextBatch` | emu-service/internal/docstore/find.go:133-168 | the next batch, the cursor shortened or closed, or the failure |
| `DocPaging.Store.Kill` | emu-service/internal/docstore/find.go:170-196 | the named cursors are closed; each number is answered as killed once if it was open, and as missing every other time |
| `TxMirror.MirrorExact` | emu-service/internal/emulator/emulator.go:147-164 | from agreement, one turn keeps the session and the executor agreed if and only if it is not a BEGIN inside a block that is faulted or meets a poisoned transaction |
| `TxMirror.RunMirrorExact` | emu-service/internal/emulator/emulator.go:118-164 | over every run, whatever is sent, the machines agree all along if and only if no turn is such a BEGIN |
| `TxMirror.FaultedBeginDiverges` | emu-service/internal/pgwire/session.go:402-411 | a run with a faulted BEGIN inside a block, after which the client is told it is idle while its transaction is open and poisoned |
| `TxMirror.StatusIsTrue` | emu-service/internal/pgwire/session.go:388-411 | along every run with BEGIN only outside a block, under any verdicts and engine failures, the status told is the transaction's |
| `TxMirror.ReadyTellsTheTruth` | emu-service/internal/pgwire/session.go:379-386 | every ready frame sent along such a run carries the executor's state at that moment |
| `TxMirror.FailedCommitLandsNothing` | emu-service/internal/sqlitedb/executor.go:60-125 | a COMMIT that is faulted or fails leaves both machines idle and the committed data as it was |
| `TxMirror.CommittedOnlyBy` | emu-service/internal/sqlitedb/executor.go:92-165 | committed data changes only by a COMMIT that succeeds or a statement outside a block |
| `TxData.CommitLands` | emu-service/internal/sqlitedb/executor.go:92-107 | an unfaulted COMMIT of an open, unpoisoned transaction by an engine that succeeds leaves the transaction's view committed, no transaction, and the COMMIT tag |
| `TxData.RollbackLeaves` | emu-service/internal/sqlitedb/executor.go:92-125 | a ROLLBACK, and a COMMIT of a poisoned transaction, leave the data and no transaction, with the ROLLBACK tag |
| `TxData.StatementTakesEffect` | emu-service/internal/sqlitedb/executor.go:127-173 | a statement takes effect on the view inside a block, on the data outside, and nowhere once the block is poisoned |
| `TxData.StatementFails` | emu-service/internal/sqlitedb/executor.go:160-165 | a failed statement poisons the block it is in and changes no data |
| `TxData.BlockCommitted` | emu-service/internal/emulator/emulator.go:118-164 | over a run: BEGIN, statements of any effects, COMMIT leave those effects, in order, on the data, and the client told it is idle |
| `TxData.BlockRolledBack` | emu-service/internal/emulator/emulator.go:118-164 | the same with ROLLBACK leaves the data as it was |
| `TxData.LoneStatement` | emu-service/internal/emulator/emulator.go:118-164 | a statement outside a block leaves its effect at once |
| `TxData.FaultLandsNothing` | emu-service/internal/sqlitedb/executor.go:57-69 | a fault changes no data: a COMMIT or ROLLBACK it hits ends the transaction, anything else poisons the one that is open |
| `TxData.DroppedIsGone` | emu-service/internal/emulator/emulator.go:147-155 | a dropped connection takes no effect and does nothing more, whatever is sent |
| `TxData.FailureSkips` | emu-service/internal/pgwire/session.go:151-168 | a failed operation takes the rest of its query with it; a refused connect ends the connection |
| `TxData.SkippedToSync` | emu-service/internal/pgwire/session.go:184-200 | after an extended failure everything sent is passed over up to a Sync, which owes a ready |
| `TxMirror.OneReadyPerRequest` | emu-service/internal/pgwire/session.go:100-131 | ready frames sent and owed are as many as the requests earned: none lost, none doubled |
| `TxMirror.WireSession.NextOp` | emu-service/internal/pgwire/session.go:100-131 | the next operation, driver statements passed over |
| `TxMirror.ServeOp` | emu-service/internal/emulator/emulator.go:147-164 | one verdict carried out on both objects |
| `SqlScan.SkipQuoted` | emu-service/internal/sqltext/scan.go:73-85 | the end of a quoted run, doubled marks passed over |
| `SqlScan.Scan` | emu-service/internal/sqltext/scan.go:31-57 | the kind and the end of the piece at an index |
| `SqlScan.Tokenize` | emu-service/internal/sqltext/scan.go:28-59 | the words are those of the statement's pieces, none from a comment, literal or blank |
| `SqlScan.Bind` | emu-service/internal/sqltext/scan.go:107-124 | splicing by words is rewriting piece by piece |
| `SqlScan.PiecesSpell` | emu-service/internal/sqltext/scan.go:28-99 | the pieces, put end to end, are the statement |
| `SqlScan.BindableExact` | emu-service/internal/sqltext/scan.go:107-154 | the rewrite changes exactly the dollar sign of each top-level placeholder, and no other byte |
| `SqlScan.PieceStable` | emu-service/internal/sqltext/scan.go:31-99 | a piece scans the same when only what follows it was rewritten |
| `SqlScan.BindableIdempotent` | emu-service/internal/sqltext/scan.go:107-154 | rewriting what was rewritten changes nothing |
| `SqlScan.QuotedUntouched` | emu-service/internal/sqltext/scan.go:73-124 | any text at all, quoted with its marks doubled, is left as it is by the rewrite, and the rest is rewritten as if it stood alone |
| `SqlScan.QuotedNameExact` | emu-service/internal/sqltext/scan.go:63-68 | quoting a name and reading it back gives the name, whatever it contains |
| `SqlScan.LineCommentUntouched` | emu-service/internal/sqltext/scan.go:87-124 | a comment to the end of its line or of the statement is left as it is |
| `SqlScan.BlockCommentUntouched` | emu-service/internal/sqltext/scan.go:94-124 | a comment to its closing mark is left as it is, over any number of lines |
| `SqlScan.NameBecomes` | emu-service/internal/sqltext/scan.go:107-154 | a dollar sign and digits alone become a question mark and the digits; any other name stays |
| `SqlScan.OtherUntouched` | emu-service/internal/sqltext/scan.go:107-124 | a byte that begins none of these stays |
| `SqlScan.WordsExact` | emu-service/internal/sqltext/scan.go:28-59 | the words are the names, quoted names and marks of the statement, each at its byte |
| `SqlScan.WordsInOrder` | emu-service/internal/sqltext/scan.go:28-59 | the words stand in the order of the statement |
| `SqlScan.QuotedWords` | emu-service/internal/sqltext/scan.go:28-85 | a literal gives no word and a quoted name one, whatever text stands between the marks |
| `AmqpWire.GetPut` | emu-service/internal/amqp/wire.go:78-88 | a big-endian number that fits its width reads back as itself |
| `AmqpWire.PutGet` | emu-service/internal/amqp/wire.go:42-45 | octets are the only ones that read as their number |
| `AmqpWire.PutDigits` | emu-service/internal/amqp/wire.go:76-88 | the octets of a number are its digits to base 256, highest first |
| `AmqpWire.Reader.Take` | emu-service/internal/amqp/wire.go:32-40 | the octets there are, or zeros; running off the end is remembered for good |
| `AmqpWire.ReadEncoded` | emu-service/internal/amqp/frame.go:44-77 | a frame survives the wire with what is behind it, unless its payload is over the reader's maximum, which is refused |
| `AmqpWire.ReadIsWritten` | emu-service/internal/amqp/frame.go:44-77 | what is read as a frame is that frame as it is written |
| `AmqpWire.ReadStays` | emu-service/internal/amqp/frame.go:44-64 | more bytes change nothing about a frame read or refused |
| `AmqpWire.PartIsShort` | emu-service/internal/amqp/frame.go:44-64 | any part of a frame that lacks its end is waited for, not refused |
| `AmqpContent.Agree` | emu-service/internal/amqp/amqp.go:178-186 | the agreed maximum lies between floor and proposal, never above what was asked; refused exactly below the floor |
| `AmqpContent.BodyFramesFit` | emu-service/internal/amqp/session.go:586-589 | every body frame carries something and is, end to end, no longer than the maximum |
| `AmqpContent.FeedContent` | emu-service/internal/amqp/decode.go:250-302 | the frames of a message stage that message with identical body and properties |
| `AmqpContent.StagedOnLastFrame` | emu-service/internal/amqp/decode.go:284-302 | before the last frame nothing is staged and nothing has failed |
| `AmqpContent.FollowRoomy` | emu-service/internal/amqp/frame.go:50-53 | whatever bytes arrive, no message is staged whose properties one frame has no room for |
| `AmqpContent.ReceiveRefuses` | emu-service/internal/amqp/decode.go:250-282 | unannounced content, a short header or another class, and a body over its size are refused with 505, 502 and 501, and a refused frame stages nothing |
| `AmqpContent.ContentRoundTrip` | emu-service/internal/amqp/session.go:573-590 | encoded, read back and decoded, a message is staged whole and alone if and only if its content header fits the frame maximum |
| `AmqpContent.Session.SendContent` | emu-service/internal/amqp/session.go:573-590 | the octets of the header and body frames are appended to the output |
| `AmqpContent.Session.TakeHeader` | emu-service/internal/amqp/decode.go:250-270 | the header read through the field reader, truncation and wrong class refused |
| `AmqpContent.Session.Serve` | emu-service/internal/amqp/session.go:140-160 | the stream read frame by frame to its end or its first failure |
| `Rules.Interceptor.DecideOp` | emu-service/internal/control/interceptor.go:133-147 | the loop over the rules leaves the counters and the verdict of the specification |
| `Rules.NameMatchesExact` | emu-service/internal/control/rules.go:236-247 | a pattern matches segment by segment, a star standing for a whole segment only |
| `RulesHalves.DecideHalf` | emu-service/internal/control/interceptor.go:149-170 | on one operation a half's counters and its part of the verdict are those of its rules alone |
| `RulesHalves.HalvesIndependent` | emu-service/internal/control/interceptor.go:133-170 | over every run of operations, additions, removals and resets the outcome half is as if there were no delay rules, and the other way round |
| `RulesCounting.SettledMeans` | emu-service/internal/control/interceptor.go:149-159 | a half is decided for an operation exactly when an earlier rule of it acted and, if a delay, a positive one |
| `RulesCounting.CountersExact` | emu-service/internal/control/rules.go:262-275 | over every run of operations, additions, removals and resets an armed rule's matched count is the matching operations since it was armed that no earlier rule of its half decided |
| `RulesCounting.VerdictsExact` | emu-service/internal/control/interceptor.go:133-147 | each verdict is composed of exactly the rules whose occurrence is past the threshold and within the budget |
| `RulesVerdict.VerdictMeans` | emu-service/internal/control/interceptor.go:133-170 | along every run: dropped if and only if a drop rule acts; the error that of the error or cap rule that acts, or none; the delay that of the last delay rule that acts, or zero; the actions listed in order |
| `RulesVerdict.OneRefuses` | emu-service/internal/control/interceptor.go:149-159 | at most one rule refuses an operation |
| `RulesVerdict.DelayExactly` | emu-service/internal/control/rules.go:154-156 | a delay is its milliseconds if and only if their nanoseconds fit 64 bits |
| `RulesVerdict.AppliesExactly` | emu-service/internal/control/rules.go:179-198 | a rule applies where its pattern matches and every gauge it asks about is reported, at least or at most as it asks |
| `RulesVerdict.AloneActs` | emu-service/internal/control/rules.go:145-275 | alone, a cap lets its limit through and acts on all after, another rule lets its `after` through, and both stop after `times` |
| `RulesCounting.FiredExact` | emu-service/internal/control/rules.go:262-275 | the fired count is the operations the rule acted on since it was armed, never more than its budget |
| `RulesCounting.OnePerHalf` | emu-service/internal/control/interceptor.go:149-159 | after a rule that fills its half no later rule of the half acts or counts |
| `RulesCounting.ShadowedExactly` | emu-service/internal/control/interceptor.go:149-159 | in any rule list and run, of two rules of a half between which nothing else settled it, the second acts after the first if and only if the first left the half open and the second is due itself |
| `RulesCounting.LongDelaysBothAct` | emu-service/internal/control/rules.go:154-156 | a delay rule of 9223372036855 milliseconds and one behind it, both due, both act, because the nanoseconds of the first wrap |
| `InstallQueue.Queue.Ensure` | rce-service/rce_service/install_queue.py:62-70 | the missing packages in order, or an immediate return |
| `InstallQueue.Queue.AdmitRequest` | rce-service/rce_service/install_queue.py:80-98 | per missing package a recheck, the job in flight, or a new one under the language's lock |
| `InstallSafety.MissingExactly` | rce-service/rce_service/install_queue.py:52-70 | what is missing is what is neither known nor on the volume, in the order asked |
| `InstallSafety.AskMeans` | rce-service/rce_service/install_queue.py:62-70 | a request returns at once if and only if all it asks for is cached, and starts nothing itself |
| `InstallSafety.StepKeeps` | rce-service/rce_service/install_queue.py:52-114 | every step keeps the registrations, the locks, what is known and where each request stands |
| `InstallSafety.InstallSafe` | rce-service/rce_service/install_queue.py:52-114 | in every interleaving: one writer per language, one unfinished job and one success per package, done jobs forgotten, a normal return only with every package on the volume, and no queued job without a writer to wait for |
| `InstallSafety.RetriedAfterFailure` | rce-service/rce_service/install_queue.py:80-114 | in every interleaving an admitted request awaits only unfinished jobs, so a failed install is started again |
| `Glob.AcceptsExactly` | emu-service/internal/kv/glob.go:13-56 | matching token by token is cutting the text into one piece per token |
| `Glob.ReadMembers` | emu-service/internal/kv/glob.go:78-89 | the loop over a class finds the character exactly when a range, an escape or a member holds it, and ends behind the bracket |
| `Glob.ReadClass` | emu-service/internal/kv/glob.go:71-90 | a class, negated or not, decides the character as its token does |
| `Glob.MatchesRun` | emu-service/internal/kv/glob.go:46-56 | backtracking over a star finds a match exactly when one exists |
| `Glob.Matches` | emu-service/internal/kv/glob.go:13-41 | the matcher terminates and decides exactly the language of the pattern's tokens |
| `GlobSpelling.WrittenIsRead` | emu-service/internal/kv/glob.go:13-90 | tokens written as a pattern are read back as they were |
| `GlobSpelling.PlainStandsForItself` | emu-service/internal/kv/glob.go:13-41 | a pattern without special characters stands for itself alone |
| `GlobSpelling.MarksStandFor` | emu-service/internal/kv/glob.go:13-90 | a star stands for any text, a question mark for one character, a class for those its ranges hold, or do not |
| `KvSpace.Span` | emu-service/internal/kv/collections.go:171-183 | the half-open range holds exactly the indices the inclusive, negative-aware ends select |
| `KvExpiry.ExecAgrees` | emu-service/internal/kv/space.go:48-130 | no command can tell apart two spaces that show the same live entries, nor make them differ |
| `KvExpiry.LazyIsEager` | emu-service/internal/kv/space.go:57-70 | on every trace with a clock that does not go back, the replies are those of a store that removes all expired keys before each command |
| `KvLaws.NoneEverEmpty` | emu-service/internal/kv/space.go:98-104 | from a start with no empty collection there is none after any trace, and no pop indexes an empty list |
| `KvLaws.NeverPanicsExactly` | emu-service/internal/kv/collections.go:123-142 | no trace makes a pop index an empty list if and only if no live list is empty at the start |
| `KvLaws.PushThenPop` | emu-service/internal/kv/collections.go:106-142 | a pop at the same end gives back what was pushed and the space as it was |
| `KvLaws.ParseFormat` | emu-service/internal/kv/strings.go:194-221 | a counter's text reads back as its number |
| `KvLaws.AddExactly` | emu-service/internal/kv/strings.go:194-221 | an increment fails with overflow exactly when 64 bits cannot hold the sum, and otherwise stores it and keeps the deadline |
| `KvLaws.TtlExactly` | emu-service/internal/kv/keyspace.go:69-79 | TTL tells the seconds left, rounded up, if and only if rounding up does not overflow |
| `KvLaws.LongestTtlWraps` | emu-service/internal/kv/keyspace.go:42-79 | the longest deadline EXPIRE accepts is answered with a negative TTL |
| `KvMeaning.SaddExact` | emu-service/internal/kv/collections.go:185-199 | the members are the old and the named ones, and the answer is how many the set grew by |
| `KvMeaning.SremExact` | emu-service/internal/kv/collections.go:201-217 | the named members are gone, and the answer is how many the set shrank by |
| `KvMeaning.HsetExact` | emu-service/internal/kv/collections.go:20-39 | a field holds the last value given for it, or what it held |
| `KvMeaning.HsetCounts` | emu-service/internal/kv/collections.go:29-38 | the answer is how many fields the hash grew by |
| `KvMeaning.HdelExact` | emu-service/internal/kv/collections.go:53-69 | exactly the named fields are gone |
| `KvMeaning.HdelCounts` | emu-service/internal/kv/collections.go:60-68 | the answer is how many fields the hash shrank by |
| `KvMeaning.PushExact` | emu-service/internal/kv/collections.go:106-121 | items pushed at the back follow the list, items pushed at the front precede it in reverse |
| `KvMeaning.PopsInOrder` | emu-service/internal/kv/collections.go:123-142 | pops take the items of a list in order from their end, and the last one takes the key with it |
| `KvMeaning.PushedIsQueued` | emu-service/internal/kv/collections.go:106-142 | whatever is pushed at one end comes off the other in the order it was pushed, after all the list already held |
| `KvMeaning.DelExact` | emu-service/internal/kv/keyspace.go:17-25 | exactly the named keys are gone |
| `KvMeaning.DelCounts` | emu-service/internal/kv/keyspace.go:17-25 | the answer is how many distinct named keys were live |
| `KvMeaning.SetThenGet` | emu-service/internal/kv/strings.go:15-51 | what a SET that succeeds writes is what a GET reads, at once and until its deadline |
| `KvStrings.SetMeans` | emu-service/internal/kv/strings.go:30-93 | refused for its words, nothing where NX or XX forbids it, and otherwise the text with the deadline named last, the one kept, or none |
| `KvStrings.ReadWordsMeans` | emu-service/internal/kv/strings.go:63-93 | the options are the words that occur and the last time named; the first bad word, or NX with XX, is refused |
| `KvStrings.GetMeans` | emu-service/internal/kv/strings.go:15-21 | the text held, nothing, or a refusal of another type; nothing changes |
| `KvStrings.GetsetMeans` | emu-service/internal/kv/strings.go:104-116 | the text that was there is answered, and the new one left without a deadline |
| `KvStrings.AppendMeans` | emu-service/internal/kv/strings.go:146-153 | the old text followed by the new, with its deadline; the answer is the length |
| `KvStrings.StrlenMeans` | emu-service/internal/kv/strings.go:155-162 | the length of the text held, or zero |
| `KvStrings.SetexMeans` | emu-service/internal/kv/strings.go:95-102 | the text with its deadline, or a refusal of a time that is not positive or too long |
| `KvStrings.GoneAtDeadline` | emu-service/internal/kv/space.go:57-70 | a text written with a time is read until the time is up and is gone from that moment on; one written without is read for good |
| `KvStrings.IncrementMeans` | emu-service/internal/kv/strings.go:194-221 | a number held, or zero, becomes the sum with its deadline kept, or nothing changes where 64 bits cannot hold it |
| `KvStrings.IncrementRefuses` | emu-service/internal/kv/strings.go:194-207 | another type and a text that is no number are refused and left |
| `KvStrings.DecrementMeans` | emu-service/internal/kv/strings.go:172-184 | a decrement is the opposite increment |
| `KvStrings.LeastDecrementRefused` | emu-service/internal/kv/strings.go:178-182 | the one step without an opposite is refused |
| `KvStrings.ExpireMeans` | emu-service/internal/kv/keyspace.go:42-65 | zero for no key, the key gone for a time not positive, a refusal of one too long, and otherwise only the deadline set |
| `KvStrings.TtlAndTypeMean` | emu-service/internal/kv/keyspace.go:69-87 | -2 for no key, -1 for no deadline, the seconds left rounded up; and the name of the type |
| `KvStrings.HashReads` | emu-service/internal/kv/collections.go:41-86 | one field or all of a hash, nothing of a missing key, a refusal of another type |
| `KvStrings.LengthReads` | emu-service/internal/kv/collections.go:159-169 | the length of a list, or zero, or a refusal |
| `KvStrings.RangeReads` | emu-service/internal/kv/collections.go:144-183 | the items whose index the two ends select, in order |
| `KvStrings.SetReads` | emu-service/internal/kv/collections.go:222-247 | the members, whether one is among them, and how many |
| `KvStrings.MsetMeans` | emu-service/internal/kv/strings.go:135-144 | each key named holds the last text given for it without a deadline, and every other what it did |
| `KvStrings.MgetMeans` | emu-service/internal/kv/strings.go:121-133 | for each key in turn its text, or nothing |
| `KvStrings.ExistsMeans` | emu-service/internal/kv/keyspace.go:29-37 | each mention of a key that is there is counted |
| `KvStrings.ListingMeans` | emu-service/internal/kv/keyspace.go:89-91 | the live keys the pattern fits, how many are live, and none after a flush |
| `KvCache.Cache.Live` | emu-service/internal/kv/space.go:114-128 | every live key, all others dropped |
| `KvCache.Cache.KeysMatching` | emu-service/internal/kv/keyspace.go:89-91 | the live keys in the pattern's language |
| `KvCache.Cache.DelEach` | emu-service/internal/kv/keyspace.go:17-25 | none of the named keys is left and every other is, and the answer is how many of them were live |
| `KvCache.Cache.HsetEach` | emu-service/internal/kv/collections.go:20-39 | each named field holds its last value, every other one what it held; the answer is the growth; refusals change nothing |
| `KvCache.Cache.HdelEach` | emu-service/internal/kv/collections.go:53-69 | the fields not named are left, or no key at all; the answer is the shrinkage; refusals change nothing |
| `KvCache.Cache.PushEach` | emu-service/internal/kv/collections.go:106-121 | the items in order behind the list, or in reverse before it; the answer is the length; refusals change nothing |
| `KvCache.Cache.SaddEach` | emu-service/internal/kv/collections.go:185-199 | the old members and the named ones; the answer is the growth; refusals change nothing |
| `KvCache.Cache.SremEach` | emu-service/internal/kv/collections.go:201-217 | the members not named are left, or no key at all; the answer is the shrinkage; refusals change nothing |
| `KvCache.Cache.ExistsEach` | emu-service/internal/kv/keyspace.go:29-37 | the live keys counted once per mention |
| `KvCache.ReadOptions` | emu-service/internal/kv/strings.go:63-93 | the options read in order, the first bad one reported |
| `KvCache.Cache.MsetEach` | emu-service/internal/kv/strings.go:135-144 | every pair written, deadlines dropped |

## Left out

- Sockets, buffered readers and writers, goroutines, mutexes and heartbeats: a command is one step, input is a sequence of messages or bytes, output is a sequence that grows.
- Pointers and aliasing: queues, connections, jobs and armed rules are numbered values in the fields of one object; a handler that changes an entry through a pointer writes the new entry back under its key.
- The clock is a parameter of each command of the cache, read once per command, although the program may read it twice.
- Integer widths: delivery tags, counters and lengths are unbounded, except where wrapping is the point (dates, durations, TTL, increments, frame fields).
- Bytes of SQL statements and globs are characters; case folding, Unicode and UTF-8 are not modelled.
- SQLite is an arbitrary effect on committed data that may fail at any statement; how `$inc` rounds finite floats, the regular expressions a filter compiles and the identifiers minted are parameters.
- BSON marshalling, JSON seeds, the parsing of commands and their option documents, projections, index and listing commands: input shapes only.
- The sorting library: only the comparator is modelled.
- BrokerWork.WorkConservation: one direction over whole runs, for clients that keep each channel to one queue and tags distinct on a queue; BrokerStall.SettleStallsExactly is exact, for every client, for one settlement.
- BrokerBackend.Backend.Close: messages go back in the order of a map, so only some order is stated.
- SqlScan.Tokenize: a quoted identifier's word keeps its fence, which SqlScan.Unfenced takes off; lower-cased text and the highest placeholder number are not modelled.
- AmqpContent.Session.Serve: method frames and heartbeats leave the content decoder alone, so the announcement of a publish is a starting state; confirms, channel closing and the broker behind the session are not joined to it.
- AmqpContent.ContentRoundTrip: bodies shorter than two to the sixty-fourth octets, as every Go slice is.
- Rules.Interceptor.DecideOp: the operation log, the joined fault text and the validation of rules are not modelled; conditions are already split into gauge and bound.
- InstallSafety.InstallSafe: no cancellation, no marker ever deleted; a package that appears on the volume by other hands (another replica, or the prewarming that bypasses the queue) is a step, but its writer is not one of the jobs counted.
- KvExpiry.LazyIsEager: one database; SELECT, INFO, SCAN, PING and ECHO are not modelled, KEYS and SMEMBERS answer sets where the program sorts them, and arguments arrive parsed.
- Fleet, supervision, configuration, the dashboard, the control socket, RESP and MongoDB framing, the op log ring buffer, and the HTTP backend, agent and frontend: plumbing or easy next to the core.
