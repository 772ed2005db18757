# Atmosphere annotation processor: `reportTypeAnnotation`

This project models Atmosphere's `DefaultAnnotationProcessor.reportTypeAnnotation`. This callback
wires a scanned class into the running framework. The annotation detector reports a class name
together with one of the seventeen service annotations listed at
`DefaultAnnotationProcessor.java:86-104`. The callback's if/else chain (:111-333) selects a
branch, and every branch makes mutating calls on the shared `AtmosphereFramework`. An
annotation that no test in the chain matches changes nothing.

The branches differ in how much they do:

- Four branches pass the reported class name straight to a framework setter or, for filters,
  to `broadcasterFilters().add`. They load nothing
  and have no `try`: `BroadcasterCacheService` (:150-151), `BroadcasterFilterService`
  (:192-193), `BroadcasterService` (:194-195) and `WebSocketProtocolService` (:214-215).
- `WebSocketProcessorService` (:249-254) also only passes the class name, inside a `try`.
- `AsyncSupportService` (:224-229) hands the class name to the async-support resolver, inside a
  `try`.
- `MeteorService` (:158-191) loads the class and reads its annotation, but never instantiates
  it.
- The other ten branches load and instantiate the class inside one `try`. `ManagedService`
  (:255-311) also holds a nested `try` around the synthetic interceptor (:277-305).
- In a branch with a `try`, the first `Throwable` ends the branch, and what was done before it
  stays done.

The model has two layers:

- **A step-list description of each branch** (`Wiring`). A branch is a list of steps: `New`
  (a `newInstance()` that completes), `Call(e)` (a framework call) and `Abort` (the point where
  the `try` catches). `Run` executes the steps and stops at the first `Abort`. `Report` runs
  the branch the annotation selects; `ScanAll` runs a sequence of reports.
- **The imperative processor** (`Processor.AnnotationProcessor`). It holds the shared
  `Configuration.Framework` object and has one method per branch. The methods keep the source's
  loops: the property loop, the init-parameter loop, the filter loop and the interceptor-chain
  loops. Each method is proved to leave exactly the state that running its step list gives.

Around these layers:

- `NameValue` models Java's `String.split("=")` followed by `nv[0]` and `nv[1]`. It cuts at every
  `=`, drops trailing empty pieces and fails on the index when there is no second piece.
- `Chains` models the interceptor loops, where one failing entry is skipped, and the synthetic
  interceptor's `inspect` loop.
- `Reflection` stands in for Java reflection. An `Oracle` gives the outcome of every reflective
  call: which classes load, instantiate and configure, and which annotation metadata each class
  carries.
- `Properties` proves, branch by branch, which fields a branch writes, the step where it stops
  and what persists when it stops. It also proves that over a scan the class-name settings keep
  the last write. `Wiring.ReportFrame` bounds every branch at once: it leaves the fields outside
  its kind's write set unchanged and only appends to the list fields.

Facts about the code that the model keeps:

- There are seventeen annotation kinds (:86-104).
- `"k=a=b"` gives the value `"a"`; the text after the second `=` is dropped (:123-125).
- A property or config string without `=` throws `ArrayIndexOutOfBoundsException` at `nv[1]`.
  That exception reaches the branch's outer `catch`, so it ends the whole branch (:122-131,
  :147).
- The managed-service chain holds the fixed interceptors that instantiate and configure,
  followed by the synthetic one: between one and five entries (:260-305).
- The managed-handler wrapper wraps the second instance of the class (:320-328).
- In the websocket branch, `m.path()` is read before `s.newInstance()` runs (:202-203).

## Model

| member | source | states |
|---|---|---|
| NameValue.KeyValueOf | modules/cpr/src/main/java/org/atmosphere/cpr/DefaultAnnotationProcessor.java:122-125 | for a key and a non-empty value without `=`, `"key=value"` followed by nothing or by more `=...` text parses to exactly that key and value |
| NameValue.KeyValueParts | modules/cpr/src/main/java/org/atmosphere/cpr/DefaultAnnotationProcessor.java:123 | when a string parses, the key is the text before the first `=` and the value runs from that `=` up to the next `=` or the end |
| NameValue.KeyValueNone | modules/cpr/src/main/java/org/atmosphere/cpr/DefaultAnnotationProcessor.java:123-124 | `nv[1]` fails exactly when no `=` in the string is followed later by a character other than `=` (both directions) |
| NameValue.KeyValueOfValueText | modules/cpr/src/main/java/org/atmosphere/cpr/DefaultAnnotationProcessor.java:123-124 | text other than `=` after some `=` is enough for a second piece |
| NameValue.KeyValueOfNoValueText | modules/cpr/src/main/java/org/atmosphere/cpr/DefaultAnnotationProcessor.java:123-124 | without such text, `split` leaves at most one piece and the index fails |
| NameValue.KeyValueEmptyValue | modules/cpr/src/main/java/org/atmosphere/cpr/DefaultAnnotationProcessor.java:123-124 | `"key==text"` has the empty string as its value, because the empty piece between the two `=` is not a trailing one |
| NameValue.KeyValueTwoSeparators | modules/cpr/src/main/java/org/atmosphere/cpr/DefaultAnnotationProcessor.java:123-125 | `"k=a=b"` gives key `"k"` and value `"a"` |
| NameValue.KeyValueMissingValue | modules/cpr/src/main/java/org/atmosphere/cpr/DefaultAnnotationProcessor.java:129-130 | `"k"` and `"k="` have no value |
| NameValue.DropTrailingEmptyParts | modules/cpr/src/main/java/org/atmosphere/cpr/DefaultAnnotationProcessor.java:123 | `split` removes a run of empty pieces at the end and keeps everything before it |
| Chains.BuildChain | modules/cpr/src/main/java/org/atmosphere/cpr/DefaultAnnotationProcessor.java:133-143 | the loop yields the declared classes that both instantiate and configure, in declared order: a subsequence of the declared list |
| Chains.ChainIsSubsequence | modules/cpr/src/main/java/org/atmosphere/cpr/DefaultAnnotationProcessor.java:177-187 | the built chain keeps the declared order |
| Chains.ChainMembers | modules/cpr/src/main/java/org/atmosphere/cpr/DefaultAnnotationProcessor.java:137-139 | every chain entry is a declared class whose instantiation and configuration succeeded |
| Chains.ChainKeepsUsable | modules/cpr/src/main/java/org/atmosphere/cpr/DefaultAnnotationProcessor.java:135-139 | every declared class that instantiates and configures is in the chain |
| Chains.ChainSkipsOneFailure | modules/cpr/src/main/java/org/atmosphere/cpr/DefaultAnnotationProcessor.java:140-142 | one failing entry is dropped, the loop carries on, and the chain is one shorter than the declared list |
| Chains.ChainAround | modules/cpr/src/main/java/org/atmosphere/cpr/DefaultAnnotationProcessor.java:266-274 | a failing class contributes nothing: the chain is the chain of the classes before it followed by that of the classes after it |
| Chains.InspectWithListeners | modules/cpr/src/main/java/org/atmosphere/cpr/DefaultAnnotationProcessor.java:285-294 | `inspect` appends the declared listener classes that instantiate, in order, skips the rest and returns `CONTINUE` |
| Chains.AttachableIsSubsequence | modules/cpr/src/main/java/org/atmosphere/cpr/DefaultAnnotationProcessor.java:286-292 | the attached listeners keep the declared order |
| Chains.AttachableMembers | modules/cpr/src/main/java/org/atmosphere/cpr/DefaultAnnotationProcessor.java:287-288 | only declared listener classes that instantiate are attached |
| Chains.Resource.AddEventListener | modules/cpr/src/main/java/org/atmosphere/cpr/DefaultAnnotationProcessor.java:288 | `addEventListener` appends the listener to the resource |
| Configuration.Framework.SetDefaultBroadcasterClassName | modules/cpr/src/main/java/org/atmosphere/cpr/DefaultAnnotationProcessor.java:195 | overwrites the default broadcaster and nothing else |
| Configuration.Framework.AddBroadcasterFilter | modules/cpr/src/main/java/org/atmosphere/cpr/DefaultAnnotationProcessor.java:193 | `broadcasterFilters().add` appends one filter and changes nothing else |
| Configuration.Framework.AddInitParameter | modules/cpr/src/main/java/org/atmosphere/cpr/DefaultAnnotationProcessor.java:130 | appends one init parameter |
| Configuration.Framework.AddAtmosphereHandler | modules/cpr/src/main/java/org/atmosphere/cpr/DefaultAnnotationProcessor.java:144 | appends one registration of path, handler and chain |
| Configuration.Framework.SetBroadcasterCacheClassName | modules/cpr/src/main/java/org/atmosphere/cpr/DefaultAnnotationProcessor.java:151 | overwrites the broadcaster cache class name |
| Configuration.Framework.SessionSupport | modules/cpr/src/main/java/org/atmosphere/cpr/DefaultAnnotationProcessor.java:146 | overwrites the session-support flag |
| Configuration.Framework.InitWebSocket | modules/cpr/src/main/java/org/atmosphere/cpr/DefaultAnnotationProcessor.java:198 | sets the websocket-initialised flag |
| Configuration.Framework.RegisterWebSocketHandler | modules/cpr/src/main/java/org/atmosphere/cpr/DefaultAnnotationProcessor.java:202-203 | appends a websocket handler at a path |
| Configuration.Framework.SetWebSocketProtocolClassName | modules/cpr/src/main/java/org/atmosphere/cpr/DefaultAnnotationProcessor.java:215 | overwrites the websocket protocol class name |
| Configuration.Framework.SetWebsocketProcessorClassName | modules/cpr/src/main/java/org/atmosphere/cpr/DefaultAnnotationProcessor.java:251 | overwrites the websocket processor class name |
| Configuration.Framework.Interceptor | modules/cpr/src/main/java/org/atmosphere/cpr/DefaultAnnotationProcessor.java:220 | appends a global interceptor |
| Configuration.Framework.AddBroadcasterCacheInspector | modules/cpr/src/main/java/org/atmosphere/cpr/DefaultAnnotationProcessor.java:154 | appends a cache inspector |
| Configuration.Framework.SetAsyncSupportTo | modules/cpr/src/main/java/org/atmosphere/cpr/DefaultAnnotationProcessor.java:226 | overwrites the async support |
| Configuration.Framework.AsyncSupportListener | modules/cpr/src/main/java/org/atmosphere/cpr/DefaultAnnotationProcessor.java:232 | appends an async-support listener |
| Configuration.Framework.SetBroadcasterFactoryTo | modules/cpr/src/main/java/org/atmosphere/cpr/DefaultAnnotationProcessor.java:239 | overwrites the broadcaster factory |
| Configuration.Framework.AddBroadcasterListener | modules/cpr/src/main/java/org/atmosphere/cpr/DefaultAnnotationProcessor.java:245 | appends a broadcast listener |
| Configuration.Framework.EndPointMapper | modules/cpr/src/main/java/org/atmosphere/cpr/DefaultAnnotationProcessor.java:314 | overwrites the endpoint mapper |
| Wiring.FilterStepsRun | modules/cpr/src/main/java/org/atmosphere/cpr/DefaultAnnotationProcessor.java:117-120 | the filter loop appends exactly the declared filters, in order |
| Wiring.BroadcasterStepsRun | modules/cpr/src/main/java/org/atmosphere/cpr/DefaultAnnotationProcessor.java:116-120 | the broadcaster part sets the default broadcaster, then appends the filters |
| Wiring.ConfigStepsRun | modules/cpr/src/main/java/org/atmosphere/cpr/DefaultAnnotationProcessor.java:128-131 | the init-parameter loop appends the pairs before the first string without a value; the branch continues only if every string has one |
| Wiring.ParsedPrefixAll | modules/cpr/src/main/java/org/atmosphere/cpr/DefaultAnnotationProcessor.java:128-131 | the loop reaches the end exactly when every string parses |
| Wiring.ParsedPrefixAt | modules/cpr/src/main/java/org/atmosphere/cpr/DefaultAnnotationProcessor.java:128-131 | the loop's i-th iteration adds the i-th string's pair, or throws exactly at the first string without a value |
| Wiring.AllPairsEvery | modules/cpr/src/main/java/org/atmosphere/cpr/DefaultAnnotationProcessor.java:122-131 | "the loop completes" is the same as "every string of the list has a value" |
| Wiring.PropertyCallsAppend | modules/cpr/src/main/java/org/atmosphere/cpr/DefaultAnnotationProcessor.java:122-126 | the property calls of two lists of pairs are those of the first, then those of the second |
| Wiring.ScanAllAppend | modules/cpr/src/main/java/org/atmosphere/cpr/DefaultAnnotationProcessor.java:336-338 | scanning two batches of reports is scanning the first, then the second from the state it leaves |
| Wiring.RunCreate | modules/cpr/src/main/java/org/atmosphere/cpr/DefaultAnnotationProcessor.java:113 | a branch starting with `loadClass(..).newInstance()` creates one object and goes on, or does nothing when that throws |
| NameValue.Split | modules/cpr/src/main/java/org/atmosphere/cpr/DefaultAnnotationProcessor.java:123 | `split("=")` gives pieces with no `=` in them; a string without `=` is one piece; once some `=` cuts, the last piece is never empty |
| NameValue.KeyValue | modules/cpr/src/main/java/org/atmosphere/cpr/DefaultAnnotationProcessor.java:123-125 | `nv[0]` and `nv[1]` exist only when the string has an `=`, and neither of them contains one |
| NameValue.PiecesNoSeparator | modules/cpr/src/main/java/org/atmosphere/cpr/DefaultAnnotationProcessor.java:123 | the pieces cut at every `=` contain no `=` |
| Chains.Chain | modules/cpr/src/main/java/org/atmosphere/cpr/DefaultAnnotationProcessor.java:133-143 | the interceptor loop adds at most one entry per declared class |
| Chains.Attachable | modules/cpr/src/main/java/org/atmosphere/cpr/DefaultAnnotationProcessor.java:286-292 | the `inspect` loop attaches at most one listener per declared class |
| Chains.AttachableKeepsInstantiable | modules/cpr/src/main/java/org/atmosphere/cpr/DefaultAnnotationProcessor.java:286-292 | every declared listener class that instantiates is attached |
| Configuration.UpdateFrame | modules/cpr/src/main/java/org/atmosphere/cpr/DefaultAnnotationProcessor.java:116-314 | one framework call writes only its own field, and an adder only appends to its list |
| Wiring.Run | modules/cpr/src/main/java/org/atmosphere/cpr/DefaultAnnotationProcessor.java:112-149 | running a branch creates no more objects than the branch has completed `newInstance()` steps |
| Wiring.RunFrame | modules/cpr/src/main/java/org/atmosphere/cpr/DefaultAnnotationProcessor.java:112-149 | a run changes only the fields its calls write, and only appends to the list fields |
| Wiring.Steps | modules/cpr/src/main/java/org/atmosphere/cpr/DefaultAnnotationProcessor.java:109-333 | each annotation kind's branch writes only that kind's fields and creates at most two objects; only an annotation no test matches has no steps |
| Wiring.Report | modules/cpr/src/main/java/org/atmosphere/cpr/DefaultAnnotationProcessor.java:109-333 | one report creates at most two objects |
| Wiring.ReportFrame | modules/cpr/src/main/java/org/atmosphere/cpr/DefaultAnnotationProcessor.java:109-333 | one report leaves every field outside its kind's write set unchanged and only appends to the list fields |
| Wiring.ScanAll | modules/cpr/src/main/java/org/atmosphere/cpr/DefaultAnnotationProcessor.java:109-333 | a sequence of reports never removes anything from the framework's lists and never lowers the object count |
| Wiring.AtmosphereHandlerSteps | modules/cpr/src/main/java/org/atmosphere/cpr/DefaultAnnotationProcessor.java:111-149 | the handler branch writes only the handler fields; it creates one instance, or none and stops at once when `newInstance()` throws |
| Wiring.HandlerSteps | modules/cpr/src/main/java/org/atmosphere/cpr/DefaultAnnotationProcessor.java:116-146 | once the handler has its annotation, the default broadcaster is always written, and nothing outside the handler fields is |
| Wiring.RegisterHandlerSteps | modules/cpr/src/main/java/org/atmosphere/cpr/DefaultAnnotationProcessor.java:144-146 | the closing calls write exactly the handler table, the cache and the session flag |
| Wiring.BroadcasterSteps | modules/cpr/src/main/java/org/atmosphere/cpr/DefaultAnnotationProcessor.java:116-120 | the broadcaster part writes the default broadcaster, and the filters exactly when some are declared |
| Wiring.FilterSteps | modules/cpr/src/main/java/org/atmosphere/cpr/DefaultAnnotationProcessor.java:117-120 | the filter loop writes the filter list exactly when there are filters, and creates nothing |
| Wiring.ConfigSteps | modules/cpr/src/main/java/org/atmosphere/cpr/DefaultAnnotationProcessor.java:128-131 | the config loop writes only the init parameters and creates nothing |
| Wiring.MeteorSteps | modules/cpr/src/main/java/org/atmosphere/cpr/DefaultAnnotationProcessor.java:158-191 | the Meteor branch writes only the broadcaster, filters, init parameters and handler table, writes nothing when the class does not load, and creates nothing |
| Wiring.WebSocketHandlerSteps | modules/cpr/src/main/java/org/atmosphere/cpr/DefaultAnnotationProcessor.java:196-213 | the websocket branch always starts with `initWebSocket()`, writes only the websocket-handler fields and creates at most one instance |
| Wiring.WebSocketRegistrationSteps | modules/cpr/src/main/java/org/atmosphere/cpr/DefaultAnnotationProcessor.java:203-210 | after instantiation the websocket branch writes the websocket handlers, the default broadcaster and the cache, plus the filters at most |
| Wiring.InterceptorSteps | modules/cpr/src/main/java/org/atmosphere/cpr/DefaultAnnotationProcessor.java:216-223 | the interceptor list is written exactly when the class instantiates and configures; one instance is created when it instantiates |
| Wiring.ManagedSteps | modules/cpr/src/main/java/org/atmosphere/cpr/DefaultAnnotationProcessor.java:255-311 | the handler table and the cache are written exactly when the class instantiates and carries the annotation; one instance is created when it instantiates |
| Wiring.ManagedRegistrationSteps | modules/cpr/src/main/java/org/atmosphere/cpr/DefaultAnnotationProcessor.java:307-308 | the registration writes the handler table and the cache, creates nothing, and ends by setting `HeaderBroadcasterCache` |
| Wiring.ManagedHandlerSteps | modules/cpr/src/main/java/org/atmosphere/cpr/DefaultAnnotationProcessor.java:318-331 | the managed-handler branch writes at most the handler table and creates two instances, or none when the class does not instantiate |
| Properties.ManagedHandlerNotCreated | modules/cpr/src/main/java/org/atmosphere/cpr/DefaultAnnotationProcessor.java:320 | a managed handler class whose first `newInstance()` throws changes nothing |
| Processor.ApplyProperties | modules/cpr/src/main/java/org/atmosphere/cpr/DefaultAnnotationProcessor.java:122-126 | the property loop makes `setProperty` and `addProperty` for each pair in order, and completes exactly when every property has a value |
| Processor.AnnotationProcessor.ReportTypeAnnotation | modules/cpr/src/main/java/org/atmosphere/cpr/DefaultAnnotationProcessor.java:109-334 | one report leaves the processor and the framework exactly as running the selected branch's steps does |
| Processor.AnnotationProcessor.Scan | modules/cpr/src/main/java/org/atmosphere/cpr/DefaultAnnotationProcessor.java:337-338 | the detector's reports, handled in order, give `ScanAll` |
| Processor.AnnotationProcessor.NewCandidate | modules/cpr/src/main/java/org/atmosphere/cpr/DefaultAnnotationProcessor.java:113 | a completed `newInstance()` yields a new object of the class, numbered in creation order |
| Processor.AnnotationProcessor.ReportClassName | modules/cpr/src/main/java/org/atmosphere/cpr/DefaultAnnotationProcessor.java:150-151 | the branches that pass the class name on (also :192-195, :214-215, :249-254), and an unlisted annotation, follow their steps |
| Processor.AnnotationProcessor.ReportInstance | modules/cpr/src/main/java/org/atmosphere/cpr/DefaultAnnotationProcessor.java:152-157 | the branches that hand a new instance to the framework (also :224-248, :312-317) follow their steps |
| Processor.AnnotationProcessor.HandOver | modules/cpr/src/main/java/org/atmosphere/cpr/DefaultAnnotationProcessor.java:224-248 | each such branch makes its one framework call with the instance |
| Processor.AnnotationProcessor.AddFilters | modules/cpr/src/main/java/org/atmosphere/cpr/DefaultAnnotationProcessor.java:117-120 | the filter loop appends the filters in order |
| Processor.AnnotationProcessor.ConfigureBroadcaster | modules/cpr/src/main/java/org/atmosphere/cpr/DefaultAnnotationProcessor.java:116-120 | sets the default broadcaster and appends the filters |
| Processor.AnnotationProcessor.AddInitParameters | modules/cpr/src/main/java/org/atmosphere/cpr/DefaultAnnotationProcessor.java:128-131 | appends the parsed prefix of the config strings and reports whether every one parsed |
| Processor.AnnotationProcessor.AddInitParameterFrom | modules/cpr/src/main/java/org/atmosphere/cpr/DefaultAnnotationProcessor.java:129-130 | one iteration appends the string's pair, or throws when it has no value |
| Processor.AnnotationProcessor.ReportAtmosphereHandler | modules/cpr/src/main/java/org/atmosphere/cpr/DefaultAnnotationProcessor.java:111-149 | the handler branch follows its steps |
| Processor.AnnotationProcessor.ConfigureHandler | modules/cpr/src/main/java/org/atmosphere/cpr/DefaultAnnotationProcessor.java:116-146 | once the handler exists and has its annotation: broadcaster, properties, config, then registration |
| Processor.AnnotationProcessor.RegisterHandler | modules/cpr/src/main/java/org/atmosphere/cpr/DefaultAnnotationProcessor.java:133-146 | builds the chain, registers the handler, then sets the cache and the session flag |
| Processor.AnnotationProcessor.ReportMeteor | modules/cpr/src/main/java/org/atmosphere/cpr/DefaultAnnotationProcessor.java:158-191 | the Meteor branch follows its steps |
| Processor.AnnotationProcessor.ReportWebSocketHandler | modules/cpr/src/main/java/org/atmosphere/cpr/DefaultAnnotationProcessor.java:196-213 | the websocket branch follows its steps |
| Processor.AnnotationProcessor.RegisterWebSocket | modules/cpr/src/main/java/org/atmosphere/cpr/DefaultAnnotationProcessor.java:203-210 | registers the websocket handler, then sets the broadcaster, filters and cache |
| Processor.AnnotationProcessor.ReportInterceptor | modules/cpr/src/main/java/org/atmosphere/cpr/DefaultAnnotationProcessor.java:216-223 | the global interceptor branch follows its steps |
| Processor.AnnotationProcessor.ReportManaged | modules/cpr/src/main/java/org/atmosphere/cpr/DefaultAnnotationProcessor.java:255-311 | the managed-service branch follows its steps |
| Processor.AnnotationProcessor.RegisterManaged | modules/cpr/src/main/java/org/atmosphere/cpr/DefaultAnnotationProcessor.java:276-308 | appends the listener-attaching interceptor, registers the service, then sets the header cache |
| Processor.AnnotationProcessor.ReportManagedHandler | modules/cpr/src/main/java/org/atmosphere/cpr/DefaultAnnotationProcessor.java:318-331 | the managed-handler branch follows its steps |
| Properties.ParsedPrefixComplete | modules/cpr/src/main/java/org/atmosphere/cpr/DefaultAnnotationProcessor.java:128-131 | when every string parses, the pairs added are exactly the strings' keys and values, in order |
| Properties.PropertyCallsAt | modules/cpr/src/main/java/org/atmosphere/cpr/DefaultAnnotationProcessor.java:122-126 | the i-th pair gives call 2i, `setProperty`, and call 2i+1, `addProperty`, with the same name and value |
| Properties.RunRegisterHandlerSteps | modules/cpr/src/main/java/org/atmosphere/cpr/DefaultAnnotationProcessor.java:144-146 | the closing calls append the registration and set the cache and the session flag, and nothing else |
| Properties.RunHandlerSteps | modules/cpr/src/main/java/org/atmosphere/cpr/DefaultAnnotationProcessor.java:116-146 | broadcaster and filters are always set; a bad property stops the branch there, a bad config string stops it after the pairs before it; only when all parse is the handler registered |
| Properties.HandlerNotCreated | modules/cpr/src/main/java/org/atmosphere/cpr/DefaultAnnotationProcessor.java:113 | a handler class that does not instantiate changes nothing |
| Properties.HandlerWithoutAnnotation | modules/cpr/src/main/java/org/atmosphere/cpr/DefaultAnnotationProcessor.java:114-116 | without the annotation, the instance is created and nothing else happens |
| Properties.HandlerBadProperty | modules/cpr/src/main/java/org/atmosphere/cpr/DefaultAnnotationProcessor.java:122-126 | a property without a value aborts the branch: broadcaster and filters stay set, and there is no init parameter, handler, cache or session change |
| Properties.HandlerBadConfig | modules/cpr/src/main/java/org/atmosphere/cpr/DefaultAnnotationProcessor.java:128-131 | a config string without a value aborts after the pairs before it, which stay added; there is no handler, cache or session change |
| Properties.HandlerRegistered | modules/cpr/src/main/java/org/atmosphere/cpr/DefaultAnnotationProcessor.java:111-149 | when every string parses, the complete new state: broadcaster, filters, init parameters, the registration with its property calls and chain, the cache and the session flag |
| Properties.ClassNameBranches | modules/cpr/src/main/java/org/atmosphere/cpr/DefaultAnnotationProcessor.java:150-151 | the cache, filter, broadcaster, protocol and processor branches (also :192-195, :214-215, :249-254) load nothing and write exactly their one field with the class name |
| Properties.UnlistedChangesNothing | modules/cpr/src/main/java/org/atmosphere/cpr/DefaultAnnotationProcessor.java:109-333 | an annotation no branch tests changes nothing |
| Properties.InstanceBranches | modules/cpr/src/main/java/org/atmosphere/cpr/DefaultAnnotationProcessor.java:152-157 | the instance branches (also :224-248, :312-317) set or append the new object in their one field, or change nothing when it cannot be created |
| Properties.InterceptorBranch | modules/cpr/src/main/java/org/atmosphere/cpr/DefaultAnnotationProcessor.java:216-223 | the interceptor is appended only when it instantiates and configures; a failing `configure` leaves only the created instance |
| Properties.MeteorBranch | modules/cpr/src/main/java/org/atmosphere/cpr/DefaultAnnotationProcessor.java:158-191 | nothing without the class or the annotation; otherwise broadcaster, filters and config pairs, and a servlet processor registration only if every config string parses |
| Properties.WebSocketHandlerFails | modules/cpr/src/main/java/org/atmosphere/cpr/DefaultAnnotationProcessor.java:196-203 | `initWebSocket()` stays done when loading, the annotation or instantiation fails; nothing else changes |
| Properties.WebSocketHandlerRegistered | modules/cpr/src/main/java/org/atmosphere/cpr/DefaultAnnotationProcessor.java:196-213 | otherwise the new instance is registered at the path, and the broadcaster, filters and cache are set |
| Properties.ManagedChainShape | modules/cpr/src/main/java/org/atmosphere/cpr/DefaultAnnotationProcessor.java:260-305 | the managed chain has 1 to 5 entries: the fixed interceptors that load, in listed order, then the listener-attaching one last |
| Properties.ManagedRegistered | modules/cpr/src/main/java/org/atmosphere/cpr/DefaultAnnotationProcessor.java:255-311 | the service is registered at its path with that chain, and the cache becomes `HeaderBroadcasterCache` |
| Properties.ManagedNotRegistered | modules/cpr/src/main/java/org/atmosphere/cpr/DefaultAnnotationProcessor.java:257-276 | without instantiation or annotation nothing is registered and the cache is unchanged |
| Properties.ManagedHandlerRegistered | modules/cpr/src/main/java/org/atmosphere/cpr/DefaultAnnotationProcessor.java:318-331 | two instances are created and the second, a distinct object, is wrapped and registered with an empty chain |
| Properties.ManagedHandlerWithoutAnnotation | modules/cpr/src/main/java/org/atmosphere/cpr/DefaultAnnotationProcessor.java:320-328 | without the annotation both instances are created and nothing is registered |
| Properties.StepsLeave | modules/cpr/src/main/java/org/atmosphere/cpr/DefaultAnnotationProcessor.java:109-333 | a branch that cannot overwrite a class-name setting contains no call that does, for every oracle |
| Properties.ScanAllLeaves | modules/cpr/src/main/java/org/atmosphere/cpr/DefaultAnnotationProcessor.java:109-333 | reports of kinds that cannot overwrite a setting keep its value |
| Properties.LastWriteWins | modules/cpr/src/main/java/org/atmosphere/cpr/DefaultAnnotationProcessor.java:150-151 | the class-name case (also :194-195, :214-215, :249-251): after a report of the setting's own kind, followed only by reports that cannot overwrite it, the setting holds that report's class name |
| Properties.NameWritten | modules/cpr/src/main/java/org/atmosphere/cpr/DefaultAnnotationProcessor.java:111-333 | only a kind that may overwrite the setting writes a name into it, and the setting's own kind writes the reported class name |
| Properties.ReportName | modules/cpr/src/main/java/org/atmosphere/cpr/DefaultAnnotationProcessor.java:109-333 | one report of any kind leaves the setting at the name it writes, or unchanged when it writes none: the handler's broadcaster once annotated (:116) and its cache only when every string splits (:145), Meteor's broadcaster (:167), the websocket branch's broadcaster and cache (:205, :210), the managed header cache (:308), or the reported class name for the setting's own kind |
| Properties.ScanAllName | modules/cpr/src/main/java/org/atmosphere/cpr/DefaultAnnotationProcessor.java:109-333 | over a whole scan, each report in turn overwrites the setting with the name it writes, so the last report that writes one decides |
| Properties.LastWriterDecides | modules/cpr/src/main/java/org/atmosphere/cpr/DefaultAnnotationProcessor.java:111-333 | last write wins for every kind of last writer: when no later report can overwrite the setting, the scan ends with what the j-th report left |
| Properties.FailedHandlerKeepsBroadcaster | modules/cpr/src/main/java/org/atmosphere/cpr/DefaultAnnotationProcessor.java:113 | a handler report whose class does not instantiate leaves the default broadcaster set by an earlier broadcaster report |

## Left out

- Class-path scanning (`AnnotationDetector.detect`, the context class loader): the detector's reports are the input sequence of `Scan` and `ScanAll`.
- Logging (`logger.info`, `logger.warn`, `logger.trace`).
- Java reflection is an oracle fixed in advance. Every kind of `Throwable` collapses into "not in the set". A class that instantiates once instantiates again, so the managed handler's second `newInstance()` completes like the first. One `instantiable` set stands for `newInstance()` together with the cast after it, although the cast differs by branch (to `AtmosphereHandler` at :113 and :257, to `BroadcasterCacheInspector` at :154, to `AtmosphereInterceptor` at :218, none at :320 and :324): a class reported under two kinds cannot instantiate under one and fail the cast under the other.
- `AtmosphereFramework` is not part of this model. Its setters are assumed to overwrite their field and its adders, `broadcasterFilters().add` among them, to append; the handler table and the init parameters are kept as lists of calls.
- `IntrospectionUtils.setProperty` and `addProperty` are recorded as calls on the handler instance; their effect on the handler is not modelled.
- `WebSocketProcessorFactory` is not part of this model: the default processor is assumed to exist, and its `registerWebSocketHandler` is recorded in the framework's list of websocket handlers.
- `DefaultAsyncSupportResolver.newCometSupport(className)` is not part of this model; it is taken to succeed exactly when the class loads and instantiates, like the other instance branches.
- `ReflectorServletProcessor` is recorded as a handler value carrying the servlet class name; its own behaviour is not modelled.
- Interceptors, caches, broadcasters and listeners are identified by class name only. `configure` on an interceptor has no modelled effect on the framework configuration, and `postInspect` is not modelled.
- Framework calls are assumed never to throw. In the code, a call that throws in a branch without a `try` (:150-151, :192-195, :214-215) would leave `reportTypeAnnotation` and reach the detector, and in a branch with a `try` it would end the branch there.
- Object identity: an instance of a reported class is numbered by a creation counter; this is only used to tell instances apart.
