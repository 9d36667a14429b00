# A verified model of libredfish

libredfish is a C library for talking to Redfish services. It reads documents over HTTP and
answers queries in a small path language, RedPath, both through blocking calls and through
callbacks served by one worker thread. This project models its core in Dafny and proves what
the library promises about it.

`dafny verify dfyconfig.toml` checks everything.

## How the source maps to the modules

| component | modules |
|---|---|
| `src/redpath.c`, `getStringTill` | `Text`, `CNumbers`, `RedPath` (the parser as a function, the canonical printer, the round trip), `RedPathLaws` (exact image, concatenation), `RedPathParser` (the parser as it is: nodes filled in place and spliced) |
| `src/payload.c`, blocking queries | `Json`, `DottedLookup`, `Evaluate`, `EvaluateLoops` (the array loops against `Evaluate`), `Queries`, `StepMeaning` and `FilterMeaning` (what each step finds, in terms of the payload and the text written), `FilterPartition`, `LinkTransparency` |
| `src/payload.c`, queries with callbacks | `AsyncEvaluate` (what waits is a tree of stages), `CallbackReplies` (the arguments of the callback), `AsyncRefinesSync`, `FilterFinds`, `WalkData`, `WalkRefinement`, `FilterFate`, `WalkConditions`, `FanInLatch`, `FanInRace`, `WalkOwnership` |
| `src/queue.c` | `Queue` (one thread, real pointers), `QueueThreads` (any number of threads, stepping between their accesses to shared memory), `QueueHistory` (arguments, results and real time), `QueueProgress` (waiting, and what is reclaimed) |
| `src/asyncEvent.c` | `EventActor` |
| `src/service.c`, `src/asyncRaw.c` | `SyncBridge`, `RefLedger`, `Teardown`, `UploadCursor`, `Base64` |

Some conventions. A service is a store of documents; asking for one that is not there is a
failed request, and `gets` counts requests. The source recurses without a bound (a collection
may hold itself), so the evaluator takes the C call depth it may use; every statement is for
all depths, and `Evaluate.PathDeeper` says that a greater depth changes no answer. A test that
hands NULL to `strtoll` or `strcmp` has no answer either. In the concurrent models a thread is a
program counter, a run is any interleaving of steps, and each step checks what it touches:
`fault` records a use of freed memory or a second free (`MisuseFaults`, `DeadUseFaults`).

What is taken for granted: allocations succeed; every submitted request is answered exactly
once, and for the blocking walk before its wait of five seconds ends; the callbacks of one query
do not run at the same time (one worker thread calls them), and a starting call made on another
thread is through before the worker answers the first request it has queued. `FanInLatch` drops
the last of these for a fan-out, there callbacks and the starting loop interleave freely, but
takes each count as one step. That is so when the worker itself starts the fan-out. `FanInRace`
drops this too and steps between the reads and writes of the counter: off the worker the source
needs the assumption, see below.

## What was found

- Not every name lookup is the same lookup. The span-scanning loop drops empty segments
  (`a..b` is `a.b`), the recursion looks up an empty key. The two agree on all documents
  exactly when the name has no dot or no empty segment (`DottedLookup.LookupsAgreeIff`).
- The name step with callbacks gathers a property of the members of an array or collection,
  where the blocking one finds nothing (`WalkConditions.MissingNameAgreesIff`,
  `MissingNameIsGathered`).
- A filter started with callbacks may be accepted and never call back although the blocking walk
  has an answer. Which ones is decided by the data alone (`FilterFate.SilentIff`):
  `Members@odata.count` exceeds the members, of which there is at least one, and all of them come
  out within the starting call; or a member that has a slot is such a filter itself, inline or
  behind a link. In exactly these cases no run calls back. In all others the filter is refused or
  every run calls back, after a number of replies that the data fix
  (`FilterFate.NeverCallsBackExactlyWhenSilent`, `EveryRunMeetsItsFate`). A correct count and a
  last member that starts do not help when a member is silent (`WalkConditions.SilenceSpreads`).
- As a protocol, whatever the timing of replies: an accepted fan-out calls back in every
  complete run exactly when its last slot starts and no filter started for a slot stays mute
  (`FanInLatch.FiresExactlyWhenLastStarts`).
- `left--` is not atomic. Started off the worker, a fan-out counts on two threads; no update is
  lost in any interleaving if and only if all slots the starting thread counts itself come before
  the first it queues (`FanInRace.SafeExactlyWhenStarterFirst`). Otherwise some run loses an
  update and then never calls back (`FanInRace.UpdateLost`). With one queued and one inline slot
  a run may also call back twice, the second time on a freed context (`FanInRace.BothMayFinish`).
- A filter on the way that keeps several payloads makes the answer depend on the order of
  replies: an index behind it takes whichever came first (`WalkConditions.OrderOfRepliesShows`).
  The main theorem therefore asks that filters before the last step keep at most one payload in
  the blocking walk (`Narrow`).
- The index step with callbacks fetches linked `Members` with a blocking call. On the worker
  thread that call answers NULL, so the step refuses what the blocking walk finds exactly when
  it runs on the worker and meets linked members; on every other thread the two always agree
  (`WalkConditions.RefusedExactlyWhenLinked`, `OffWorkerAgrees`).
- README.md:62 says that the whole service is treated like one document. That holds for every
  path whose names look up at most one key, as all dot-free names do
  (`LinkTransparency.LinksAreTransparent`). A dotted name does not follow links on its way: the
  name step respects link expansion if and only if it looks up at most one key
  (`LinkTransparency.TransparentIffOneKey`).
- A path that ends in a slash does not glue: what follows is read as a new root
  (`RedPathLaws.ConcatLawIff`). With a first text that is not empty and does not end in a
  slash the law needs nothing of the second text.
- README.md:64-78 describes `[name]` as "contain a property". On a plain payload the test holds if
  and only if the property resolves to an object or a string, and is undefined if and only if
  it resolves to an integer (`FilterPartition.ExistsIffObjectOrString`); true, false, null, real
  numbers and arrays count as absent (`FilterPartition.ContainedButNotFound`).

## Model

| member | source | states |
|---|---|---|
| Json.GetByIndex | src/payload.c:1681-1697 | the iterator loop reaches the entry at that iteration position, or NULL past the end |
| Text.GetStringTill | src/util.c:45-67 | token and suffix make up the text, the token is free of the terminator, the suffix starts with it |
| Text.UntilStops | src/util.c:45-67 | a token without the terminator is cut off exactly there, so gluing and cutting are inverse |
| CNumbers.DecimalScans | src/redpath.c:140-148 | the decimal text of any number converts to it, and saturates at the largest unsigned and signed 64-bit number |
| CNumbers.NegativeScans | src/redpath.c:140-148 | with a minus sign it converts to the negative number, saturating, and unsigned to its negation modulo 2^64 |
| CNumbers.ToSizeTIsMod | src/payload.c:558-574 | the cast of a signed count keeps it modulo 2^64 |
| CNumbers.ConversionIsDecidedEarly | src/redpath.c:140-148 | whether bracket text is taken for an index is decided before an operator or other non-numeric tail |
| CNumbers.HexScans | src/redpath.c:140-148 | behind 0x, in either case, a number is read in base 16 |
| CNumbers.OctalScans | src/redpath.c:140-148 | behind a zero it is read in base 8 |
| CNumbers.FrontDoesNotMatter | src/redpath.c:140-148 | each of the six blanks in front changes nothing, nor does a plus sign in front of a digit |
| DottedLookup.JsonObjectGetByPath | src/payload.c:29-68 | the cursor loop ends on every string and computes the left fold of single-key lookup over the non-empty segments |
| DottedLookup.EmbeddedIsFold | src/payload.c:737-752 | the recursive lookup is the left fold over all segments, empty ones included |
| DottedLookup.LookupsAgreeIff | src/payload.c:737-752 | loop and recursion agree on every JSON value if and only if the name has no dot or no empty segment |
| RedPath.CutOfIsWhole | src/redpath.c:33-68 | what the parser cuts a text into makes up the whole text again |
| RedPath.ParseOfCut | src/redpath.c:16-70 | the parse of any well-formed cut is its steps followed by the parse of its tail |
| RedPath.BracketReadsBack | src/redpath.c:140-230 | the printed text of every bracket step is parsed to that step |
| RedPath.BracketWithoutOperator | src/redpath.c:140-173 | a bracket text without any of the four operator characters is a number, a star, last() or the name of a property that has to exist |
| RedPath.BracketWithOperator | src/redpath.c:174-230 | property, each of the six operators and value are read as written; `!` without `=` is malformed |
| RedPath.RoundTrip | src/redpath.c:16-230 | parsing the canonical text of every canonical chain gives back the same chain |
| RedPathLaws.ParseIsCanonical | src/redpath.c:16-230 | whatever text is parsed, the chain is canonical |
| RedPathLaws.ParseIsOntoCanonical | src/redpath.c:16-230 | the chains the parser can produce are exactly the canonical ones |
| RedPathLaws.NormalForm | src/redpath.c:16-230 | printing a parse and parsing it again changes nothing |
| RedPathLaws.ConcatLaw | src/redpath.c:16-70 | for a non-empty text that does not end in a slash, the parse of both texts glued by a slash is the two parses in a row |
| RedPathLaws.ExtraSlashIsARoot | src/redpath.c:33-68 | after a final slash the glued text contains one more root step |
| RedPathLaws.ConcatLawIff | src/redpath.c:16-70 | the law holds for all second texts if and only if the first is non-empty and does not end in a slash |
| RedPathParser.RedPathNode.constructor | src/redpath.c:28-32 | a node starts out zeroed |
| RedPathParser.FillOperation | src/redpath.c:177-230 | property name, operation and value are written as the specification's bracket step says |
| RedPathParser.FillBracket | src/redpath.c:140-230 | the second node of a segment shows the parsed bracket |
| RedPathParser.HangBracket | src/redpath.c:126-140 | name node and bracket node are linked, and the bracket node is the end |
| RedPathParser.ParseNode | src/redpath.c:104-230 | one segment fills one or two nodes in place, `end` is the last of them |
| RedPathParser.ParseRest | src/redpath.c:65-69 | the chain of the remaining text is spliced behind the end node |
| RedPathParser.FillRoot | src/redpath.c:33-54 | a root node with its optional version, and where the text goes on |
| RedPathParser.FillSegment | src/redpath.c:55-64 | a segment up to the next slash, and where the text goes on |
| RedPathParser.ParseRedPath | src/redpath.c:16-70 | the linked chain of fresh nodes shows exactly the parse of the text |
| RedPathParser.CleanupRedPath | src/redpath.c:72-97 | every node of a chain is released once, last to first |
| Evaluate.PathsCompose | src/payload.c:503-536 | evaluating any path, whatever its steps, is evaluating a front part and then the rest on what it found, request for request |
| Evaluate.ByIndexDeeper | src/payload.c:401-448 | a greater call depth changes no index step |
| Evaluate.OpResultDeeper | src/payload.c:1184-1213 | a greater call depth changes no filter |
| Evaluate.SlotsDeeper | src/payload.c:1312-1366 | a greater call depth changes no fan-out |
| Evaluate.PathDeeper | src/payload.c:503-536 | whether a path has an answer, which, and at what price does not depend on the allowed depth |
| StepMeaning.NameFinds | src/payload.c:332-373 | a name finds the value of the first entry of that key, a text as an object of this one entry, without a request |
| StepMeaning.NameFollows | src/payload.c:349-363 | an object whose only entry is a text called @odata.id is replaced by the document, or nothing, at the price of one request |
| StepMeaning.NameMissing | src/payload.c:343-347 | a name that is not there, or is asked of anything but an object, finds nothing |
| StepMeaning.DottedNameFinds | src/payload.c:36-68 | a dotted name finds what its parts find one after another in one document |
| StepMeaning.IndexOfArray | src/payload.c:418-447 | the entry of an array as it is, or the document it links to; nothing past the end |
| StepMeaning.IndexOfObject | src/payload.c:422-447 | the value at a position of an object that is no collection; nothing elsewhere |
| StepMeaning.IndexOfCollection | src/payload.c:411-417 | an index into a collection is an index into its members whatever the count says; linked members cost one request more |
| StepMeaning.FilterOfArray | src/payload.c:1537-1587 | a filter over an array finds what an index step and then the filter find, entry by entry in order: nothing, the one payload, or a collection with their count |
| StepMeaning.FilterOfCollection | src/payload.c:1312-1366 | over a collection it goes through as many entries as the count says; a count of zero or one that is no number finds nothing |
| StepMeaning.FilterOfLinkedCollection | src/payload.c:1312-1366 | linked members cost one request more, and none when the count is zero |
| FilterMeaning.StrCmpIsTheOrder | src/payload.c:1114-1123 | the comparison of texts is the order by the first place where they part |
| FilterMeaning.IntegerFilters | src/payload.c:1093-1112 | a path `[prop<n]` and its five companions keep a payload exactly when its integer property is so related to the number written, negative ones included |
| FilterMeaning.TextFilters | src/payload.c:1143-1156 | the same for a text property and the text written, in the order of texts |
| FilterMeaning.ObjectFilters | src/payload.c:1143-1156 | the same for an object by its own member of that name; without a text there nothing is kept |
| FilterMeaning.ConstantFilters | src/payload.c:1157-1175 | true, false and null are compared by their names, the text written on the left |
| FilterMeaning.NothingToCompare | src/payload.c:1176-1182 | a property that is not there, or is an array or a real number, is kept by no comparison |
| FilterMeaning.ExistenceFilter | src/payload.c:1143-1151 | `[prop]` keeps objects and texts and has no answer for integers |
| FilterMeaning.OtherFilters | src/payload.c:1184-1213 | a malformed operator, `[*]`, `[last()]` and a root on the way find nothing on a plain payload |
| EvaluateLoops.CreateCollection | src/payload.c:1650-1679 | the object built in place is count and members in their order |
| EvaluateLoops.Conclude | src/payload.c:1349-1366 | no, one or several kept payloads give nothing, that payload, or a collection |
| EvaluateLoops.EvalSlots | src/payload.c:1335-1347 | the loop over `valid` keeps exactly the filtered elements in order, with the requests added up |
| EvaluateLoops.CollectionEvalOp | src/payload.c:1312-1366 | the collection filter computes the specified answer |
| EvaluateLoops.ArrayEvalOp | src/payload.c:1537-1587 | the array filter computes the specified answer |
| EvaluateLoops.GetOpResult | src/payload.c:1184-1213 | collection, array and plain payload are told apart as in the specification |
| Queries.GluedQuery | src/payload.c:503-556 | querying two texts glued by a slash is querying the first and then the second on what it found |
| Queries.PrintedQuery | src/payload.c:538-556 | querying with the printed text of a path is evaluating the path; printing what was parsed changes no query |
| FilterPartition.SimpleOpTrichotomy | src/payload.c:1093-1182 | over a comparable value exactly one of less, equal, greater holds and the other operators are their combinations |
| FilterPartition.IntegersCompareAsWritten | src/payload.c:1168-1172 | an integer is equal, less or greater exactly as the number written is, negative ones included |
| FilterPartition.StrCmpIsAnOrder | src/payload.c:1114-1123 | string comparison is a total order: antisymmetric, transitive, zero only on equal strings |
| FilterPartition.PositionsAre | src/payload.c:1537-1587 | the kept positions are exactly those whose element the filter finds something in, ascending |
| FilterPartition.SlotsArePositions | src/payload.c:1557-1569 | over any array the list the filter keeps is what it found at those positions, in order |
| FilterPartition.ComparableKept | src/payload.c:1184-1213 | an element that can be compared is kept itself, exactly when its property satisfies the comparison |
| FilterPartition.FiltersPartition | src/payload.c:1093-1182 | at every comparable element exactly one of less, equal and greater keeps it; the other three operators are unions and complement |
| FilterPartition.FiltersCount | src/payload.c:1537-1587 | the three kept lists together have as many elements as the array |
| FilterPartition.UndefinedIff | src/payload.c:1114-1182 | a comparison always has an outcome, the existence test on everything but integers, a malformed operator only where no text is compared |
| FilterPartition.ExistsIffObjectOrString | src/payload.c:1125-1182 | the existence test holds iff the property resolves to an object or a string, and is undefined iff to an integer |
| FilterPartition.ContainedButNotFound | src/payload.c:1162-1167 | for every dot-free name a payload that contains the property and fails the test |
| LinkTransparency.FollowMoved | src/payload.c:332-373 | following a possible link leads to related documents, whichever objects were moved out |
| LinkTransparency.NameSame | src/payload.c:332-373 | a name step that looks up at most one key respects link expansion |
| LinkTransparency.IndexSame | src/payload.c:401-448 | an index step respects link expansion |
| LinkTransparency.SimpleOpSame | src/payload.c:1125-1182 | comparisons cannot tell related values apart |
| LinkTransparency.OpSame | src/payload.c:1184-1213 | a filter respects link expansion |
| LinkTransparency.LinksAreTransparent | README.md:62-62 | every path whose names look up at most one key, whatever its steps, gives related results on related services |
| LinkTransparency.PathLocal | src/payload.c:503-536 | on a document without links no path makes a request |
| LinkTransparency.ServiceIsOneDocument | README.md:62-62 | a linked service answers like the single document that holds everything inline, which needs no requests |
| LinkTransparency.LinkHidesTheRest | src/payload.c:36-68 | for every name of two keys or more a pair of related services it tells apart |
| LinkTransparency.TransparentIffOneKey | src/payload.c:332-373 | the name step respects link expansion on all related services if and only if it looks up at most one key |
| CallbackReplies.NameReplies | src/payload.c:754-871 | a name that is there calls back with success, 200 and the value, a text as an object of one entry; behind a link with the document, or with failure, 404 and no payload |
| CallbackReplies.MissingNameIsRefused | src/payload.c:754-871 | on an object that is no collection a name that is not there is refused |
| CallbackReplies.ArrayNameReplies | src/payload.c:775-850 | asked of an array, a name is refused when no item has it; every item that has it adds its value behind the others |
| CallbackReplies.IndexReplies | src/payload.c:873-928 | an index calls back with the entry as it is, or the document it links to, or is refused past the end |
| CallbackReplies.FilterReplies | src/payload.c:1242-1310 | a comparison on a plain object calls back with success, 200 and the payload where the blocking one keeps it, else with failure, 0xFFFF and the payload; a property behind a link takes a request, whose failure is passed on |
| CallbackReplies.ExistenceReplies | src/payload.c:1242-1310 | the existence test calls back with the payload as kept where the property is an object or a text, inline or behind a link |
| CallbackReplies.FanOutReplies | src/payload.c:1368-1395 | a filter over an array or collection that calls back reports success and 200, whatever it kept and in every order of replies |
| CallbackReplies.FailuresEndTheWalk | src/payload.c:930-958 | the first failure, by flag or by code from 400 on, goes to the user as it is; a refused later step reports failure, 0xFFFF and no payload |
| AsyncRefinesSync.CombineCanon | src/payload.c:1368-1395 | combining payloads and combining them with their order forgotten agree |
| AsyncRefinesSync.NameStarts | src/payload.c:754-871 | a name the blocking step resolves is replied or requested alike |
| AsyncRefinesSync.MembersFetched | src/payload.c:884-891 | the members a thread fetches for a payload sound there are those of the blocking walk |
| AsyncRefinesSync.IndexStarts | src/payload.c:873-915 | an index step starts, refuses or requests exactly as the blocking step finds, on the worker and off it, blocking requests included |
| AsyncRefinesSync.PropertyStarts | src/payload.c:1272-1310 | the property of a plain payload resolves alike, dotted or not |
| AsyncRefinesSync.AfterLoopIs | src/payload.c:1509-1525 | after the starting loop `left` and the stored payloads are those of the slots that came out inside it |
| AsyncRefinesSync.LoopConserves | src/payload.c:1509-1525 | what the loop stored and what its open slots owe add up to what the slots are worth |
| AsyncRefinesSync.LaunchOwes | src/payload.c:1445-1535 | a launched fan-out owes exactly the answer and the rest of the requests of the blocking filter |
| AsyncRefinesSync.MemberStarts | src/payload.c:1472-1490 | what an index step finds in a sound collection it finds in the members fetched, on every thread |
| AsyncRefinesSync.FanOutStarts | src/payload.c:1445-1535 | starting a fan-out over the entries of a sound source commits to the blocking answer |
| AsyncRefinesSync.OpStarts | src/payload.c:1272-1310 | starting any filter by a property commits to the blocking answer, on the worker and off it |
| AsyncRefinesSync.CountKeepsSum | src/payload.c:1397-1443 | counting a slot keeps the sum of stored and owed, and the last count delivers it |
| AsyncRefinesSync.StartKeepsSum | src/payload.c:1419-1443 | a reply that starts the next stage of a slot keeps the sum |
| AsyncRefinesSync.AnswerMovesOn | src/payload.c:1242-1270 | answering any outstanding request, at any depth, leaves the same answer owed with one request less |
| FilterFinds.IndexFinds | src/payload.c:401-448 | what holds of all parts of the data holds of what an index step finds |
| FilterFinds.OpFinds | src/payload.c:1184-1213 | what a filter finds is a part of the data or a collection it made |
| WalkData.StepFits | src/payload.c:503-536 | what a step of the blocking walk finds is as fit for the rest of the path as its payload was for the whole |
| WalkRefinement.StartsOnTrack | src/payload.c:960-1000 | a walk starts owing the answer of the blocking evaluator, none included |
| WalkRefinement.StaysOnTrack | src/payload.c:930-958 | each reply in any order keeps it owed with one request less to go |
| WalkRefinement.NeverStuck | src/payload.c:930-1000 | while requests are due, one is in the queue |
| WalkRefinement.AsyncWalkRefinesBlockingWalk | src/payload.c:930-1000 | whatever the blocking walk answers, a payload or none, a walk started on any thread, with filters anywhere in the path, ends with the same after exactly as many requests, in every order of replies |
| FilterFate.SilentIff | src/payload.c:1445-1535 | a filter is silent iff an entry that has a slot is silent, inline or behind a link, or the count exceeds the entries and all of them come out within the starting call |
| FilterFate.FateDeeper | src/payload.c:1445-1535 | the call depth allowed makes no difference to what becomes of a filter |
| FilterFate.StartFated | src/payload.c:1272-1310 | a started filter is refused, replies, waits or is lost as its data say, on the worker and off it |
| FilterFate.AnswerFated | src/payload.c:1397-1443 | answering any outstanding request brings a filter exactly one reply closer to its fate |
| FilterFate.EveryRunMeetsItsFate | src/payload.c:1368-1443 | in every order of replies a filter that is not silent has called back, or was refused, after exactly the replies its data call for; a silent one has been accepted and has not |
| FilterFate.NeverCallsBackExactlyWhenSilent | src/payload.c:1509-1535 | a filter is accepted and calls back in no run if and only if its data are silent |
| WalkConditions.OffWorkerAgrees | src/payload.c:884-915 | off the worker the index step agrees with the blocking one on every payload |
| WalkConditions.RefusedExactlyWhenLinked | src/payload.c:884-891 | an index the blocking step finds is refused if and only if the step runs on the worker and meets linked members |
| WalkConditions.LinkedMembersNeedAnotherThread | src/service.c:198-205 | a path that starts so is refused on the worker and evaluated in the linked document elsewhere, after one request |
| WalkConditions.OvercountedNeverCallsBack | src/payload.c:1513-1519 | a member at hand that is counted twice: the blocking walk finds it, the other is accepted and calls back in no run |
| WalkConditions.SilenceSpreads | src/payload.c:1419-1443 | a collection with the right count whose only member is silent, inline or behind a link, is accepted and calls back in no run although the blocking walk answers |
| WalkConditions.OrderOfRepliesShows | src/payload.c:1368-1395 | an index behind a filter that keeps two finds the payload whose reply came first, the blocking walk always the first member |
| WalkConditions.MissingNameAgreesIff | src/payload.c:776-840 | a name missing on an array or collection is missing for both evaluators if and only if no member has it, and always without a members array |
| WalkConditions.MissingNameIsGathered | src/payload.c:813-840 | an array of one object that has the name: no payload for the blocking step, a gathered array for the other |
| WalkConditions.DottedPropertyAgreesIff | src/payload.c:773-850 | a dotted property resolves alike if and only if it is no literal key or one with the same value |
| FanInLatch.StepKeepsInv | src/payload.c:1397-1443 | every start, index reply and result reply keeps the latch invariant |
| FanInLatch.CompleteIff | src/payload.c:1397-1443 | a run is complete exactly when no event can follow: the loop is over and only mute filters are awaited |
| FanInLatch.LatchIsSafe | src/payload.c:1368-1443 | in every interleaving of whole counts, mute filters included: nobody comes back to a freed context, every payload brought is stored and in bounds, `validCount + left <= count`, callback and free at most once |
| FanInLatch.LastStartFires | src/payload.c:1509-1534 | when the last slot starts and no filter is mute, every complete run calls back and frees exactly once |
| FanInLatch.NothingStartedRefuses | src/payload.c:1527-1535 | when no slot starts, there is no callback and the context is freed by the starting call |
| FanInLatch.EagerLeaks | src/payload.c:1624-1648 | when some slot starts, but not the last or with a mute filter, eager replies end without callback and without free |
| FanInLatch.FiresExactlyWhenLastStarts | src/payload.c:1509-1534 | an accepted fan-out calls back in every complete run if and only if its last slot starts and no filter started for a slot is mute |
| FanInRace.StarterFirstIsSafe | src/payload.c:1412-1416 | where the starting thread counts all its slots first: no update lost, everything over when the context is freed, and in the end one callback if and only if the last slot starts |
| FanInRace.UpdateLost | src/payload.c:1513-1519 | otherwise some run loses an update, and no continuation of it calls back |
| FanInRace.SafeExactlyWhenStarterFirst | src/payload.c:1412-1437 | no interleaving of reads and writes loses an update if and only if the starting thread counts no slot behind a queued one |
| FanInRace.BothMayFinish | src/payload.c:1434-1438 | with one queued and one inline slot both threads may see zero: two callbacks, and an access to the freed context |
| WalkOwnership.PathWalk.CleanupRedPath | src/redpath.c:72-97 | exactly the nodes of the chain are freed, once each |
| WalkOwnership.PathWalk.GetPayloadForPathAsync | src/payload.c:960-1000 | a refused walk leaves nodes and callback alone and frees its context; an accepted one comes to rest delivered or waiting |
| WalkOwnership.PathWalk.GotNextRedPath | src/payload.c:930-958 | the nodes passed are freed, the rest of the chain is intact, and the reply owed is unchanged |
| WalkOwnership.PathWalk.GetPayloadForPathStringAsync | src/payload.c:1002-1022 | accepted exactly when the first stage starts; a refused query has freed everything it parsed |
| WalkOwnership.PathWalk.GetPayloadByPathAsync | src/service.c:815-885 | the same from the service root, for paths that start with a root |
| WalkOwnership.PathWalk.Serve | src/asyncRaw.c:273-420 | serving the waiting request until none is left delivers exactly once and frees every block |
| WalkOwnership.Query | src/payload.c:930-1022 | for any stages: accepted walks call back exactly once with the reply owed, every node and context is freed exactly once; a walk that breaks off at a later stage reports a failure with 0xFFFF and no payload, and a payload without failure is the last stage's after all others have replied with one |
| WalkOwnership.FirstStopDecides | src/payload.c:937-952 | the reply owed is that of the first stage that does not go on, or failure, 0xFFFF and no payload when a later stage refuses or gets no payload |
| WalkOwnership.PayloadIsTheLastStages | src/payload.c:937-952 | the user gets a payload without failure exactly when every stage has replied with one, and then it is the last stage's |
| WalkOwnership.TimingDoesNotMatter | src/payload.c:930-1000 | immediate and deferred stages give the user the same reply |
| Queue.Queue.constructor | src/queue.c:12-31 | an empty queue with one node |
| Queue.Queue.Append | src/queue.c:57-76 | the value goes behind all others and no earlier node changes place |
| Queue.Queue.CleanupUnused | src/queue.c:77-83 | exactly the consumed nodes are unlinked, contents unchanged |
| Queue.Queue.Push | src/queue.c:57-87 | contents grow by the value at the end; the consumed nodes are freed and no other |
| Queue.Queue.Pop | src/queue.c:89-133 | the oldest value and the rest, or nothing and no change when empty |
| Queue.Queue.FreeQueue | src/queue.c:33-55 | every node of the list is freed once |
| Queue.Drain | src/queue.c:112-133 | popping until nothing is left gives the contents in order |
| Queue.InOrder | src/queue.h:131-140 | over any run of pushes and pops the values come out in the order they went in, each once |
| QueueThreads.PushedIsPoppedAndPending | src/queue.c:57-133 | in every sequential run what was pushed is what was popped and then what is pending |
| QueueThreads.PushLinks | src/queue.c:65-65 | writing `last->next` keeps the invariant |
| QueueThreads.PushSwaps | src/queue.c:66-76 | the swap of `last` succeeds and publishes the linked node |
| QueueThreads.ReclaimFrees | src/queue.c:78-83 | the producer frees the first unused node, which lies before `divider` |
| QueueThreads.PopSwaps | src/queue.c:96-106 | the swap of `divider` succeeds and takes the value that was read |
| QueueThreads.StepKeepsInv | src/queue.c:57-133 | every step of every thread keeps memory, locks and log consistent |
| QueueThreads.EveryInterleavingIsSafe | src/queue.c:57-133 | no dead node is touched, the failure branches of both swaps are unreachable, pushed is popped plus pending in order |
| QueueThreads.PointersStayInOrder | src/queue.h:145-162 | first, divider and last lie in this order on one acyclic list whose freed nodes lie before first |
| QueueThreads.NothingIsLeftBehind | src/queue.c:33-55 | after `freeQueue` every node ever allocated has been freed, none twice |
| QueueThreads.EntriesAreTimely | src/queue.c:57-133 | in a log that replays, empty is reported only when all that was pushed has been popped, and a pop takes the oldest value not popped yet |
| QueueThreads.NextUseIsLive | src/queue.c:57-133 | in every interleaving whatever node a thread is about to read, write or free is allocated and not freed |
| QueueProgress.WaitingPopsBringAValue | src/queue.c:110-133 | a thread that only uses the waiting pop never comes back empty |
| QueueProgress.PopMovesOn | src/queue.c:86-133 | a pop is over after six steps of its own; only the waiting one goes back for the lock, and only from an empty queue |
| QueueProgress.NodesDoNotPileUp | src/queue.c:78-83 | when no push is under way, the consumed nodes not freed yet are at most as many as the values popped since the last push |
| QueueHistory.PushesCarryTheirArguments | src/queue.c:57-76 | what a thread has pushed are the values of its calls, in order, up to the one on its way |
| QueueHistory.RunInTwo | src/queue.c:57-133 | a run goes on where a first part of it has come to, and only adds to the log |
| QueueHistory.QueueIsLinearizable | src/queue.c:57-133 | one sequential history explains what all calls returned, and keeps to real time: cut anywhere, what has returned is in front of what begins later |
| EventActor.RemovesOnlyTheFirst | src/asyncEvent.c:818-847 | unregistering takes away the first match on callback and context, NULL being a wildcard, and nothing else |
| EventActor.UnregisterCallback | src/asyncEvent.c:818-847 | without a context the first registration of the callback goes, whatever its context and mask |
| EventActor.UnregisterContext | src/asyncEvent.c:818-847 | with a context it is the first of the callback with that context or none; others stay |
| EventActor.UnregisterUndoesRegister | src/asyncEvent.c:810-875 | registering and unregistering restores the list unless an earlier entry matches |
| EventActor.ServedOnceInOrder | src/asyncEvent.c:326-335 | each registration gets an event once if some single bit is set in its mask and in the type of the event, and not at all otherwise, in registration order |
| EventActor.SingleTypeServed | src/asyncEvent.c:326-335 | an event of a single type is served exactly to the masks that have its bit; a mask of 0 receives nothing |
| EventActor.EventGoesToThosePresent | src/asyncEvent.c:307-343 | an event is handed out once, to the registrations present at its turn |
| EventActor.NothingAfterTheEnd | src/asyncEvent.c:309-343 | items behind a terminator or an unknown item make no difference |
| EventActor.Actor.Unlink | src/asyncEvent.c:827-834 | one node leaves the linked list, the others stay in order |
| EventActor.Actor.RemoveRegistration | src/asyncEvent.c:816-848 | the list loses what the specification removes |
| EventActor.Actor.AddRegistration | src/asyncEvent.c:849-873 | the registration goes to the end of the list |
| EventActor.Actor.Deliver | src/asyncEvent.c:326-335 | the calls made are the specified receivers, in order |
| EventActor.Actor.FreeRegistrations | src/asyncEvent.c:345-357 | every node is freed once |
| EventActor.EventActorTask | src/asyncEvent.c:296-370 | the calls are the fold over the items up to the first terminator or unknown item, which ends the thread |
| SyncBridge.StepKeepsInv | src/service.c:112-235 | every step of callers and worker keeps contexts, payloads and queue consistent |
| SyncBridge.BridgeIsSafe | src/service.c:134-235 | nobody goes on with a freed context; each context and payload freed at most once; the result is the caller's own reply, always so unless refused, timed out or on the worker |
| SyncBridge.UndisturbedCallGetsItsReply | src/service.c:190-235 | a call off the worker whose request is taken and whose wait does not time out returns its reply |
| SyncBridge.AnsweredInOrder | src/asyncRaw.c:273-420 | in every interleaving the worker takes the requests in the order in which they were queued, each once |
| SyncBridge.NothingIsLeaked | src/service.c:134-148 | a completed call has freed its context once, released its payload once, and only a caller that got JSON holds it |
| SyncBridge.WorkerDoesNotBlock | src/service.c:198-205 | a blocking call on the worker returns NULL without a request |
| SyncBridge.NeverStuck | src/service.c:163-235 | while a call is not complete somebody can move without a timeout |
| SyncBridge.EveryCallReturns | src/service.c:190-235 | every run is bounded, and one that only a timeout could continue has completed every call |
| RefLedger.OperationsAreWellHeld | src/service.c:449-505 | every operation takes references only while holding one or using a carrier; a redirect that dropped first would not |
| RefLedger.OperationsLeave | src/service.c:449-505 | a request leaves one in flight and so does its redirect, a payload made leaves a payload, a refused request and a release leave nothing; and how many references each drops |
| RefLedger.LastOneOut | src/service.c:1209-1236 | when the last reference goes no carrier is left and every other thread is idle, users of a shared handle included |
| RefLedger.StepKeepsInv | src/service.c:1129-1146 | every step keeps count and outstanding references equal until teardown |
| RefLedger.CountIsOutstanding | src/service.c:1129-1236 | with any number of threads on the same handle or payload the count is what is outstanding, no operation finds `freeing` set, teardown is entered once, exactly when nothing is outstanding |
| RefLedger.CountAtRest | src/payload.c:87-102 | between operations the count is handles plus live payloads plus requests in flight |
| RefLedger.CarriersAtRest | src/service.c:449-505 | between operations, in every interleaving, the handles, payloads and requests in flight are what the operations have brought less what they have taken over |
| RefLedger.HandleIsShared | src/service.c:577-625 | two threads can make requests on one handle at the same time |
| Teardown.StepKeepsInv | src/service.c:1150-1207 | every step of the three threads keeps the teardown invariant |
| Teardown.StepAdds | src/asyncRaw.c:91-115 | a step adds to the requests that will run only while the terminator is not queued |
| Teardown.TeardownIsSafe | src/service.c:1150-1207 | whichever thread tears down: no use after free, service and queues freed at most once, the service when everybody is through and a queue when its thread has stopped |
| Teardown.TeardownIsComplete | src/asyncRaw.c:117-160 | exactly one thread frees the service, each queue is freed once, both DELETEs and all earlier requests have run |
| Teardown.NothingAfterTheTerminatorRuns | src/asyncRaw.c:273-279 | what is queued behind the terminator never runs |
| Teardown.NeverStuck | src/asyncEvent.c:125-145 | until everybody is through somebody can move, so no join waits for ever |
| Teardown.TeardownEnds | src/service.c:1150-1207 | every run is bounded by what there is to do and the redirects that add to it |
| Teardown.RedirectsCannotDelay | src/asyncRaw.c:117-160 | once the terminator is queued no redirect can put the end off |
| UploadCursor.MemoryStruct.Read | src/asyncRaw.c:549-576 | as many of the next bytes as the buffer takes or as there are go to its front, fewer only where size times count leaves 64 bits; the rest of it is untouched, pointer and size move together |
| UploadCursor.MemoryStruct.Seek | src/asyncRaw.c:578-592 | the pointer goes to the offset and the size to what is left |
| UploadCursor.Perform | src/asyncRaw.c:549-592 | over any run the bytes since the last seek are a prefix of the body from there, never more than the buffers offered, and without a 64-bit wrap either fill them or reach the end of the body; all of it after an empty read |
| Base64.SizeCheckIsExact | src/service.c:2010-2017 | the wrap-around test rejects exactly the lengths from 2^62 on |
| Base64.SmallLengthFits | src/service.c:2010-2018 | for all other lengths the output and its terminator fit the allocation |
| Base64.DecodeOfEncode | src/service.c:2024-2062 | decoding by section 4 of RFC 4648 gives back every input |
| Base64.PutGroups | src/service.c:2028-2036 | the pointer loop writes the letters of all full groups |
| Base64.PutTail | src/service.c:2038-2054 | one or two left-over bytes are written with their padding |
| Base64.Base64Encode | src/service.c:2001-2062 | NULL exactly when the length is too large; else the specified text, terminated, with `out_len` its length 4*ceil(len/3), all writes in bounds |

## Left out

- With callbacks, `[*]`, `[last()]` and roots in mid-path are not evaluated: the blocking walk keeps nothing for them, the other gives them a meaning of its own.
- The name step over the members of a collection is modelled in `AsyncEvaluate`; the blocking walk has no such step and finds nothing there, so the refinement asks for data without such names where the blocking walk finds nothing (`WalkConditions.MissingNameAgreesIff`).
- An object whose only entry is `@odata.id` with a value that is no string makes the blocking code read a NULL address; both models treat it as an ordinary value.
- A failed request carries no payload in the model; the blocking code would go on with the JSON body of an error reply.
- Which payload object is freed where: `getOpResult` returns its own argument for a plain object, so evaluation is modelled on values; ownership is proved for path nodes, contexts, queue nodes and the service.
- Copies of strings that are not freed on some branches of `parseNode` are not tracked.
- `WalkOwnership` addresses nodes and contexts by number and counts their frees, instead of using heap objects, so that a use after a free is expressible.
- The compare-and-swap, lock and thread primitives are atomic steps; data races of the C memory model, such as the unlocked write of `data` in the bridge, are modelled as interleavings.
- WalkRefinement.AsyncWalkRefinesBlockingWalk: states nothing where a filter before the last step keeps several payloads, whose order depends on the replies (`WalkConditions.OrderOfRepliesShows`), and takes a starting call off the worker to be through before the worker answers, without which the source loses counts (`FanInRace.UpdateLost`).
- WalkRefinement.StartsOnTrack: the starting call is one step; interleavings of its loop with the worker are in `FanInLatch` and `FanInRace`.
- AsyncRefinesSync.LaunchOwes: the starting loop is one step, as above.
- FilterFate.StartFated: the starting call is one step, as above.
- FanInLatch.LatchIsSafe: takes each count as one step, which holds when the worker starts the fan-out; `FanInRace` has the counts as reads and writes.
- `FanInRace` models `left`; `validCount` is read and written next to it by the same callbacks and is not modelled there.
- The TCP listener that `freeServicePtr` joins first, event listeners, ZeroMQ, TLS and libcurl: foreign calls.
- `serviceDecRefAndWait`, session creation and the other HTTP verbs follow the same reference pattern as the modelled ones.
- Header tokenising and server-sent event chunks; `src/entities/` tables; examples, bindings and daemons.
