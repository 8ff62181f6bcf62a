# The Knit gateway, verified

Knit answers declarative queries over protobuf RPCs. A query is a tree mask over a response message; an entry names
either a field or a *relation*, a join that a batch resolver computes. The gateway validates the mask and computes the
response's schema, calls the entry point, projects the response through the mask into JSON with holes, and then
stitches: in rounds, it groups the holes of a kind into one batch, calls one resolver for each batch, writes the
results into the JSON in place and projects them in turn, which may leave new holes. Errors go to the nearest enclosing
`catch`, or fail the whole call.

This project models that engine and proves what it is for:

* **Meaning.** `Meaning.dfy` says what a query means without batches, rounds or mutation: a depth-first evaluation that
  resolves one relation of one entity at a time, given which batches fail. `Handlers.Handler.Do` models the
  gateway's own way (entry calls in any order, breadth-first rounds, batches interleaved patch by patch under a permit
  each, structs filled in place) and ensures that every body it returns is what the query means; that it fails only
  with a fault the meaning says fails the call, and with one of the earliest round; and that a call that answers has
  called exactly the batches its queries use, once each, every one told the operations that lead to it. The proof
  reads a half-finished response as the tree it is headed for (`Reading.dfy`), shows that every atomic step only
  narrows that tree (`Steps.dfy`), and carries this through jobs, rounds and the call (`Stitching.dfy`, `Handler.dfy`).
  Resolver outcomes need not be known in advance: the statements hold for all failures that the calls made so far do
  not contradict. Where several errors reach one `catch`, the slot ends with one of a latest round.
* **The two calls** (`Service.dfy`): what a client of Do or Fetch can rely on, said of the requests, the replies and
  the resolvers' answers alone: which requests pass, what a schema announces (`Announcing.dfy`), what a body shows of
  each field and relation and what its values read back as (`Shows.dfy`, `Scalars.dfy`), why a call fails, and that
  the resolver calls on record are honest.
* **Further consequences** (`Guarantees.dfy`): at most one resolver call for each relation entry of the masks and
  no more rounds than relation entries are nested, whatever the data; the exact failure-free tree for every schedule;
  isolation of failures; the Do-without-throw and Fetch-without-catch rules; bodies that fit their schemas.
* **Validation** (`Schema.dfy`, `Validation.dfy`, `Conformance.dfy`): what it accepts, and why stitching then never
  meets an unknown relation or kind.
* **The hot-swapped handler** (`HotSwap.dfy`): no schema update announced after start-up is lost, in any interleaving.
* **Registry, resolver, name conversion, permits, dependency listing** (`Registry.dfy`, `Resolvers.dfy`, `Names.dfy`,
  `Parallelism.dfy`, `Dependencies.dfy`).

Three statements one might expect are false of the code. For each the project proves a witness, and exactly when the
statement does hold:

* *A failing resolver never crashes the gateway.* `stitcher.go:146` looks only at the first patch's `errPatch`,
  `stitcher.go:162` uses every patch's, and two entries of one relation without parameters share a batch even if one
  catches and the other does not. `Crashes.CrashExample` proves that such a validated query always ends in the crash;
  `Crashes.FailedRound` says how any round can end, and `Crashes.FailedBatch` that a failing batch alone in its round is
  caught, fails the call or crashes exactly as its patches' catches say; `Guarantees.CrashMixesModes` that only a query
  that uses one batch in both ways can crash.
* *A body has the shape its schema announces.* Body keys are mask names as given (`format.go:290`) while schema names
  are camel-cased (`schema.go:184`), and the lookup accepts names with underscores (`format.go:571-572`).
  `BodyShape.UnannouncedExample` is an accepted query whose body breaks its schema; `BodyShape.MessageFitsExactly` and
  `Guarantees.AnswersFit` say that a body fits exactly if it shows no key with an underscore, at any level.
* *No schema update is lost.* A signal sent before the first handler is installed can be dropped
  (`HotSwap.StartupSignalDropped`); such signals are kept exactly under the condition of
  `HotSwap.EarlySignalsKeptExactly`. Of updates announced after installation none is lost in any run exactly if the
  application stops calling `CreateHandler` once it has succeeded, as it is told to (`HotSwap.NothingLostExactly`,
  `HotSwap.SecondCallLosesUpdate`).

## How to read it

`Protobuf.dfy` has descriptors, messages and masks, `Response.dfy` the structs under construction, patches and finished
trees, `Format.dfy` what formatting gives and `StructHeap.dfy` the formatting methods that allocate and fill structs.
Go pointers to structs are addresses in a store that only grows; the identity of a `resolveMeta` pointer is the request
or the batch that made it, that of a parameter value a number. `Fault` carries the batch and the cause; an error object
in a body is the fault it was made from. `dfyconfig.toml` lists the project for `dafny verify dfyconfig.toml`.

## Model

| member | source | states |
|---|---|---|
| Names.CamelCase | format.go:528-546 | the loop computes the camel-case form that the round trips are about |
| Names.SnakeCase | format.go:548-560 | likewise for the snake-case form |
| Names.CamelAt | format.go:528-543 | the camel-case form has exactly the characters that are no underscores, in order; one is in upper case exactly if it is a lower-case letter right after an underscore |
| Names.SnakeAt | format.go:548-560 | the snake-case form has every character, in order, upper-case letters in lower case with an underscore before them |
| Names.CamelHasNoUnderscore | format.go:528-546 | a camel-case name never contains an underscore |
| Names.CamelOfUnderscoreFree | format.go:528-546 | a name without underscores is its own camel-case form |
| Names.CamelOfSnake | format.go:528-560 | snake-casing and then camel-casing returns every underscore-free name |
| Names.SnakeOfCamel | format.go:528-560 | camel-casing and then snake-casing returns a name exactly if it has no upper-case letter and every underscore is directly followed by a lower-case one |
| Names.FieldWithCamelCaseName | format.go:570-585 | the shortcut followed by the scanning loop finds what the lookup function says |
| Names.LookupAgreesWithScan | format.go:570-585 | for underscore-free names the lookup misses exactly when a plain scan misses, finds a field of that camel-case name, prefers one declared under the snake form, and is the scan when camel-case names are unique |
| Names.LookupWithUnderscore | format.go:570-585 | a name with an underscore is found exactly if its snake form is a declared name, and then only that field |
| Scalars.DecimalRoundTrip | format.go:369-374 | decimal text of an integer, 64-bit ones included, reads back as that integer |
| Scalars.DecimalCanonical | format.go:369-374 | decimal text is digits without a leading zero except for 0 itself, after a minus sign if negative, and every such text is that of the integer it reads as |
| Scalars.ScalarRoundTrip | format.go:352-399 | a JSON value reads back as the scalar it was made from, for every kind: NaN, both infinities, enum names and unknown enum numbers included; null is google.protobuf.NullValue and nothing else |
| Scalars.ScalarLeafInjective | format.go:352-399 | different scalars of a field have different JSON values, except those of google.protobuf.NullValue |
| Scalars.KeyTextRoundTrip | format.go:401-418 | the text of a map key is canonical and reads back as that key, given the kind of the keys |
| Scalars.KeyTextInjective | format.go:401-418 | different map keys of one kind have different member names |
| Scalars.MapEntriesKept | format.go:296-328 | a map comes out with one member for each entry, under its key's text, holding its own entry's element |
| StructHeaps.StructHeap.FormatMessage | format.go:139-254 | allocates and fills exactly the structs, and returns the patches, of the formatting function that the meaning lemmas are about, or reports its first failure |
| StructHeaps.StructHeap.FormatNormalMessage | format.go:256-294 | the mask loop over one message: struct contents, nested structs and patches in mask order |
| StructHeaps.StructHeap.FormatEntry | format.go:261-291 | one mask entry: a relation leaves a patch for the struct with its own or the enclosing catch, an absent field nothing, any other field its value |
| StructHeaps.StructHeap.FormatValue | format.go:296-350 | one value as single item, list or map |
| StructHeaps.StructHeap.FormatMap | format.go:298-328 | the map loop: keys paired with elements in order, first failure wins |
| StructHeaps.StructHeap.FormatList | format.go:330-345 | the list loop: as many items as elements, in order |
| StructHeaps.StructHeap.FormatSingularValue | format.go:352-386 | one element: a message formatted in turn, a scalar as a JSON value that reads back as it, or an unknown kind as failure |
| StructHeaps.FormatMapKeyValue | format.go:401-418 | a map key's text, which reads back as the key, or an unknown kind of key as failure |
| Placement.MessagePlaced | format.go:256-294 | formatting leaves exactly one patch for each relation entry at each message instance the mask reaches, in order, each for its own empty slot of a struct allocated by this formatting |
| Placement.ValuePlaced | format.go:296-350 | the same for a resolved value |
| FormatMeaning.MessageShown | format.go:139-294 | a freshly formatted message, read with its patches pending, is the tree the depth-first meaning gives it, errors on their way included |
| FormatMeaning.ValueShown | format.go:296-350 | the same for a resolved value |
| Shows.FieldSelected | format.go:570-585 | the field a mask name selects has that camel-case name or, for a name with an underscore, its snake form as declared name; a name that selects none fits no field |
| Shows.MessageShows | format.go:139-350 | the tree a query means, entry by entry: a set field its value, an unset one nothing or its kind's zero, lists and maps all their elements under their indices and keys, a relation what its resolver answers, under a meta with one more operation, a failed one its error exactly if it catches; nothing else |
| Shows.FormattingFails | format.go:256-418 | formatting fails exactly if the mask reaches a well-known value without JSON form, an unknown kind or a map with keys of no key kind, and for such a cause |
| Shows.AbortsForReason | stitcher.go:61-180 | whatever aborts a call has its reason: an error of that very batch, an unregistered relation, parameters given that its resolver does not take, or a value it gives that cannot be formatted |
| Steps.AbsentStep | stitcher.go:168-171 | skipping a patch whose relation is absent keeps every tree, the faults that will abort and the batches in use |
| Steps.FaultStep | stitcher.go:160-167 | writing an error to the slot of a patch's catch leaves a tree the meaning allows and aborts nothing else |
| Steps.ValueStep | stitcher.go:176-188 | formatting a result and writing it in place keeps what every tree is headed for, replacing one pending patch by the new ones |
| Steps.OneDone | stitcher.go:159-189 | carrying out a patch drops no use of a batch: it is the patch's own, or is still pending |
| Steps.EscapesLater | stitcher.go:159-167 | errors from below a relation belong to its own round or a later one |
| Grouping.AddToGroup | stitcher.go:67-72 | appending a patch to its group keeps the grouping |
| Grouping.Group | stitcher.go:57-84 | every queued patch is in exactly the group of its parameters, relation and origin, in queue order, or an unregistered relation is reported |
| Grouping.GroupsOfPatches | stitcher.go:49-77 | each queued patch is in exactly one group, together with exactly those of the same parameters, relation, message type and origin |
| Grouping.SelectInOrder | stitcher.go:59-72 | a group holds its patches in queue order, each as often as it is queued |
| Grouping.FindRejectedParams | stitcher.go:89-113 | reports a batch exactly if some batch has parameters that its resolver's request does not accept, and then such a one |
| Stitching.Stitcher.ResolvePatch | stitcher.go:159-189 | one patch of an answered batch, whichever way the batches not called yet turn out: keeps the response's meaning; crashes exactly if there is an error and the patch has no catch; new patches are one round later and shallower |
| Stitching.Stitcher.Start | stitcher.go:127-150 | a batch's resolver is called once, with the entities of all its patches in order; it fails the call exactly if the answer is an error and the first patch has no catch |
| Stitching.BatchHonest | stitcher.go:57-150 | a call on record is for a registered relation that accepts the parameters, asks about entities of its type only, and is recorded as failed exactly if the resolver fails, with its error, or gives another number of results |
| Stitching.Stitcher.Advance | stitcher.go:159-189 | a running batch's next patch keeps the round's state: slots distinct, trees meant, one patch fewer to do |
| Stitching.Stitcher.RunRound | stitcher.go:115-198 | for any interleaving of the batches, each holding a permit from its call to its end, never more than the limit, and never stuck: a completed round kept the response's meaning, called every batch exactly once with all its entities and caught every error; otherwise why it stopped; all permits are back unless it crashed |
| Stitching.Stitcher.FailuresCaught | stitcher.go:146-167 | in a completed round no patch of a failed batch was without a catch |
| Stitching.Stitcher.NextRound | stitcher.go:48-198 | one pass of the loop, refused batches and empty queues included; the queue it leaves belongs to the next round |
| Stitching.Stitcher.Stitch | stitcher.go:42-201 | ends within the mask depth; done, the response refines what it was headed for and nothing pending should have aborted; aborted, with a fault of the earliest round that aborts; each call is for a batch in use, told its chain of operations, none is repeated, and done, no batch in use was left out; results are only ever written to empty slots, and only errors replace anything |
| Stitching.AbortsFirstFromStart | stitcher.go:196-198 | a fault of the round under way aborts the call before any other could |
| Crashes.FailedRound | stitcher.go:146-167 | for a round of any batches: it is completed only if no failing batch has a patch without a catch, crashes only on a failing batch whose first patch has one and another has not, fails on a resolver's error only at a batch whose first patch has none, and if all errors are caught only a result that cannot be formatted stops it |
| Crashes.FailedBatch | stitcher.go:146-167 | the corollary for a failing batch alone in its round: caught exactly if all its patches have a catch, failing the call exactly if the first has none, crashing exactly if the first has one and another has not |
| Crashes.QueryAccepted | schema.go:148-196 | the crashing query passes validation |
| Crashes.CrashExample | stitcher.go:146-167 | formatting that query's response and its first round, with the resolver down, always end in the crash |
| Schemas.ComputeSchema | schema.go:148-198 | the mask loop computes the schema function, with the first error in mask order |
| Schemas.ComputeEntry | schema.go:165-193 | one entry: field before relation, unknown names and unwanted parameters refused, JSON name only where it differs |
| Schemas.ComputeFieldType | schema.go:200-322 | map, list, message and scalar types, with the masks and map keys that are refused; `Announcing.SchemaAnnounced` and `Announcing.RefusalBlames` say what the types and errors stand for |
| Announcing.SchemaAnnounced | schema.go:148-322 | an accepted schema is named after its message and announces, in mask order, each selected field or relation: its camel-case name, its JSON name recoverable and left out exactly where equal, single, list or map, the kind of its key and of its elements, nested schemas included |
| Announcing.KindAnnounced | schema.go:285-322 | no two scalar types announce the same field; NULL announces exactly google.protobuf.NullValue among the enums |
| Announcing.RefusalBlames | schema.go:148-322 | a mask is refused for its first wrong entry, everything before which is a valid mask, and for what is wrong with it |
| Schemas.AcceptedWellFormed | schema.go:162-168 | an accepted mask has distinct names at every level |
| Validation.AcceptsExactly | schema.go:148-322 | a mask is accepted exactly if, at every level, names are distinct and each selects a formattable field or a registered relation that its parameters and mask fit |
| Conformance.ReachValidated | schema.go:148-322 | every relation entry an accepted mask reaches in a conforming message is registered and its own mask accepted, and formatting can only fail on a well-known value without JSON form |
| Conformance.ValidationSuffices | schema.go:148-322 | below an accepted mask nothing aborts for an unknown relation, kind or key kind: the branch `stitcher.go:62-65` cannot be reached |
| BodyShape.MessageFits | schema.go:162-283 | the tree of a conforming message has only announced keys, each with the announced list, map, message or scalar shape or an error object, if the mask, or what the tree shows of it, has no underscores |
| BodyShape.LeafFitsType | schema.go:285-322 | a scalar's JSON value is one of the announced type: integers in range as numbers for 32 bits, as canonical decimal text for 64, floats as numbers or one of three words |
| BodyShape.KeyFitsType | schema.go:203-210 | a map key's text is one of the announced key type |
| BodyShape.MessageFitsExactly | format.go:290 | the tree fits its schema exactly if it shows no key with an underscore, at any level |
| BodyShape.UnderscoreBreaksSchema | format.go:571-572 | an entry with an underscore in its name breaks the schema as soon as it shows anything |
| BodyShape.UnannouncedExample | schema.go:183-192 | an accepted query for a field `foo_bar` by that name, and a body that breaks its schema |
| BodyShape.RefinedFits | schema.go:162-283 | a tree that refines one that fits, fits |
| BodyShape.KeysAnnouncedExactly | schema.go:183-192 | every entry of an accepted mask is announced under its own name exactly if no entry name has an underscore |
| BodyShape.NamesDistinct | schema.go:162-196 | for such masks announced names are pairwise different |
| Isolation.MessageSpared | stitcher.go:160-167 | if no fault escapes a response, it differs from the failure-free one only by error objects, and misses nothing |
| Isolation.MessageFaultFree | stitcher.go:159-189 | without failures a response holds no error object |
| ErrorModes.CaughtInDo | format.go:521-523 | in Do every entry catches exactly if nothing says throw |
| ErrorModes.UncaughtInFetch | format.go:521-523 | in Fetch none catches exactly if nothing says catch |
| ErrorModes.EscapesOwn | format.go:264-270 | where every relation catches, an error goes no further than its own relation |
| ErrorModes.ErrorInOwnSlot | format.go:264-270 | and shows in that relation's own place |
| ErrorModes.CaughtNeverAborts | stitcher.go:146-150 | where every relation catches, no resolver failure aborts |
| ErrorModes.UncaughtAborts | stitcher.go:146-150 | where none catches, every failure of a used batch aborts |
| Batches.UsesCounted | stitcher.go:67-72 | the batches a mask can use number at most its relation entries |
| Batches.UsesNested | stitcher.go:116-198 | and lie in rounds within the nesting of relation entries |
| Batches.VisitsStatic | stitcher.go:67-72 | whatever the data and the failures, a validated relation entry uses no other batches |
| Batches.MessageBatches | stitcher.go:57-84 | the same for a whole query |
| Handlers.Handler.ComputeResponseSchema | schema.go:119-146 | the checks on one request, in order, and its schema |
| Handlers.Handler.ComputeResponseSchemas | schema.go:106-117 | a schema for every request, or the first refusal |
| Handlers.Handler.OpenEntry | handler.go:105-165 | one entry point's reply, in any order among the requests: formatted with its error slot and patches, caught as body, or the reason it fails the call |
| Handlers.Handler.OpenAll | handler.go:100-170 | all entry points, in every order |
| Handlers.FinalMeans | handler.go:174-183 | once stitched, a request's body is its meaning: its tree, or one of the latest errors that escape it, exactly when some escape and it catches |
| Handlers.Handler.Answers | handler.go:174-184 | error slots that were filled replace bodies, in place |
| Handlers.UsedToldOperations | handler.go:138-141 | a batch in use is told the inbound operation, its own request's entry method and then the resolver RPCs on the way down to it |
| Handlers.AllCalled | stitcher.go:120-127 | with nothing pending any more, the batches called are exactly those in use |
| Handlers.Handler.Do | handler.go:79-185 | answers have the validated schemas and mean what the queries mean for every failure pattern the calls allow, and exactly the batches the queries use were called, once each; a failure is one that must fail the call, of the earliest round, and refused requests cause no resolver call; each call is told [inbound operation, entry method] and the resolver RPCs down to it; rounds are bounded; all permits are back unless it crashed |
| Services.PassesExactly | schema.go:119-146 | a request passes exactly if its name is valid and known, the method unary, without side effects in Fetch, and its mask valid; else the first of these that fails is the reason given |
| Services.Service.Do | handler.go:71-77 | answers show what their replies and resolvers gave, an entry point's error becoming the body exactly if its request does not say throw; a failure has its reason; calls on record are honest; if nothing says throw, no failing resolver or entry point fails the call |
| Services.Service.Fetch | handler.go:62-69 | the same, with errors caught only if the request says catch and only methods without side effects; if nothing says catch, a call that answers had no resolver and no entry point fail |
| Services.AnswersShown | handler.go:79-185 | what each answer shows: readable request body, passing request, announcing schema, and as body a caught error or the projected message, exact if no resolver failed |
| Services.FailureExplained | handler.go:79-173 | why a call fails: the first refused request, an unreadable body, an uncaught entry-point error, an unreadable or unformattable reply, all before any resolver call, or a fault with its reason |
| Guarantees.ResolverCallsBounded | stitcher.go:57-84 | at most one resolver call for each relation entry in the masks, however much data there is |
| Guarantees.RoundsBounded | stitcher.go:48-198 | no more rounds than relation entries are nested |
| Guarantees.RequestsShareNoBatch | handler.go:138-141 | two requests of a call never use the same batch |
| Guarantees.ValidatedFailures | stitcher.go:61-66 | an accepted call over conforming data can only fail by a resolver, an entry point, refused parameters, an unreadable body or reply, or a well-known value without JSON form |
| Guarantees.CrashMixesModes | stitcher.go:146-167 | a call crashes only on a failed batch its masks use both under a catch and under none |
| Guarantees.DoSurvivesResolvers | handler.go:99-120 | where errors are caught by default and nothing says throw, no resolver or entry-point failure fails the call; `Services.Service.Do` ensures it of every Do call |
| Guarantees.FetchFailsWithResolvers | handler.go:99-125 | where they are not and nothing says catch, a call that answers had no failure at all; `Services.Service.Fetch` ensures it of every Fetch call |
| Guarantees.AnswersExact | stitcher.go:42-201 | without failures every body is exactly the depth-first tree, so all schedules agree |
| Guarantees.AnswersIsolated | stitcher.go:160-167 | with failures, a body that is not itself an error is the failure-free one up to error objects |
| Guarantees.AnswersFit | schema.go:162-283 | a body has the shape of the schema returned with it exactly if it shows no key with an underscore; for underscore-free masks it has |
| Resolvers.Remote.Resolve | relation.go:132-171 | one RPC, told the operations, whose request keeps every parameter field and holds all bases in order; its error, or a wrong number of wrappers, is the error of the batch; otherwise each base gets the field as set in the wrapper at its position or, if unset, the field's default |
| Resolvers.PositionalIsPointwise | relation.go:132-171 | if every resolver RPC answers position by position, each entity of a batch gets the value it would get alone |
| Registries.Registry.AddService | knit.go:133-181 | fails without a route; else registers the methods and relations up to the first that is complained about, and nothing else, and fails exactly if there is one, with that complaint |
| Registries.AddsExactly | knit.go:133-208 | the complaints, said of the registry before the call: name or relation taken there or earlier in the service, response unknown, relation unnamed, resolver invalid, field hidden |
| Registries.Registry.AddMethod | knit.go:142-178 | one method with its checks in order; a bad annotation leaves the method registered |
| Registries.Registry.AddRelation | knit.go:183-208 | registers under the camel-case name unless a field or another relation has it |
| Registries.AlwaysConsistent | knit.go:133-208 | after any calls, failed ones included: relation names have no underscore and select no field, and each relation belongs to the registered method that resolves it |
| Registries.NothingReplaced | knit.go:145-147 | no call ever replaces or removes what earlier calls registered |
| Registries.SuccessRegistersAll | knit.go:133-181 | a successful call has registered every method of the service and every annotated relation |
| Registries.RelationsSelectable | schema.go:170-181 | a registered relation's name always selects it in a mask, never a field |
| Registries.UnderscoreSelectsNoRelation | schema.go:170-181 | a name with an underscore is accepted exactly if its snake form is a field's declared name |
| HotSwap.PatternWrittenOnce | internal/app/knitgateway/gateway.go:269-273 | in every run, whatever the application does, the pattern is written exactly once from the first installation on, by whoever installed that handler, and never before |
| HotSwap.NeverUninstalled | internal/app/knitgateway/gateway.go:256-274 | once installed there always is a handler |
| HotSwap.StepLosesNothing | internal/app/knitgateway/gateway.go:256-332 | every atomic step of watchers, updater and application keeps: a service older than a schema announced since installation has a signal waiting, an updater that will still read it or has, or a failed rebuild |
| HotSwap.NoUpdateLost | internal/app/knitgateway/gateway.go:159-332 | so in every run |
| HotSwap.NeverOlder | internal/app/knitgateway/gateway.go:256-261 | a handler is only replaced by one at least as new for every service |
| HotSwap.IdleMeansCurrent | internal/app/knitgateway/gateway.go:297-332 | an idle updater without signal and without failed rebuild means every service runs on its latest announced schema |
| HotSwap.CanCatchUp | internal/app/knitgateway/gateway.go:297-332 | from every reachable state with a handler, the updater alone can bring every service up to date, debouncing included, unless it idles after a failed rebuild |
| HotSwap.CatchesUpExactly | internal/app/knitgateway/gateway.go:329-331 | it can exactly if it is busy, has a signal waiting or did not fail last: after a failed rebuild only a new signal helps |
| HotSwap.BurstServedOnce | internal/app/knitgateway/gateway.go:310-332 | with debouncing, the signals sent before the period ends are all served by the one rebuild that follows |
| HotSwap.StartupSignalDropped | internal/app/knitgateway/gateway.go:265-268 | a run in which a signal before installation is dropped and the older schema stays |
| HotSwap.EarlySignalsKeptExactly | internal/app/knitgateway/gateway.go:256-274 | when the first handler is swapped in: in every later run the signals sent before stay accounted for, exactly if one is still waiting, the updater has just taken one, or every service was built from the latest schema signalled |
| HotSwap.SecondCallLosesUpdate | internal/app/knitgateway/gateway.go:256-261 | in every configuration with a service, if the application may call again, a run in which an update announced after installation is lost for good |
| HotSwap.NothingLostExactly | internal/app/knitgateway/gateway.go:216-218 | in every configuration: no run loses an update announced after installation exactly if the application stops calling once it has succeeded, or there is no service |
| Parallelism.PermitsConserved | stitcher.go:128-131 | in every interleaving free and held permits make up the limit |
| Parallelism.AllBackAfterWait | stitcher.go:128-198 | never more holders than the limit, and all permits back when a group has been waited for, failures and cancellation included |
| Parallelism.NeverStuck | stitcher.go:208-223 | with a positive limit some worker of an unfinished group can always go on |
| Dependencies.Accumulator.AccumulateFiles | internal/app/knitgateway/admin.go:200-211 | the recursive visit over shared seen and target: each newly seen file is output once, after its imports are seen, reachable, the file itself last; ends by the number of unseen files |
| Dependencies.Accumulate | internal/app/knitgateway/admin.go:177-178 | outputs exactly the files reachable from the root, once each, root last, and, on any graph, dependencies first exactly if none of them is on an import cycle |

## Left out

- Stitching.Stitcher.RunRound: formatting a result and writing it is one atomic step, as formatting touches only new structs and the write is locked; when a batch fails the call the model stops at once, while the code lets the other goroutines of the round end first, with their context cancelled.
- Stitching.Stitcher.Stitch: assumes that a resolver gives an entity of a batch the value the relation has for it alone; `Resolvers.PositionalIsPointwise` draws this from RPCs that answer position by position.
- Handlers.Handler.Do: an entry-point call and the formatting of its response are one step; what the backends reply is a parameter, and requests, bodies and parameters enter only by whether they parse.
- HotSwap.NoUpdateLost: context cancellation, the debounce duration and jittered polling are not modelled; a watcher installs its schema before it signals, as the transform library does.
- Resolvers.Remote.Resolve: of the headers sent along only the operations are modelled.
- Parallelism.AllBackAfterWait: says of the permits alone what `Stitching.Stitcher.RunRound` and `Handlers.Handler.OpenAll` ensure of the code that takes and returns them; giving up on a permit after cancellation is a step only here.
- Structs are addresses in one growing store instead of Go pointers, and `resolveMeta` and parameter pointers are identified by where they come from.
- The hot-swap protocol and the permits are transition systems over the atomic steps of several threads, not methods, since no single thread's code determines a run.
- Go's random map order: a map value carries the order it is ranged over, fixed for one formatting; the order of batches, relations and services is arbitrary in the model too.
- `Listen`, whose error slot is shared by all messages of a stream, and which otherwise repeats `do`.
- `path` strings and the text of error objects; an error object is the fault it reports.
- JSON text of well-known types, floats, base64 and error details, which come from libraries: opaque leaves, with a failing conversion as an error.
- `getRelationConfig`'s checks of a resolver method's shape, one branch each; the registry takes their outcome.
- Headers, codecs, routes, configuration, TLS, caches, logging, polling and the admin pages.
- The gRPC reflection poller.
