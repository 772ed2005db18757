/**
 * What one `reportTypeAnnotation(annotation, className)` call does, as a
 * list of steps: `New` when a reflective `newInstance()` of the reported class
 * completes, `Call(e)` for a mutating framework call, and `Abort` where the
 * branch's single `try` catches a `Throwable`. Running the list stops at the
 * first `Abort`; nothing done before it is undone.
 */
module Wiring {
  import opened Options
  import opened NameValue
  import opened Reflection
  import opened Chains
  import opened Configuration
  import opened Sequences

  datatype Step = New | Call(effect: Effect) | Abort

  /** The framework configuration, and how many objects of reported classes exist so far. */
  datatype World = World(fw: Config, created: nat)

  function Apply(w: World, st: Step): World
  {
    match st
    case New => w.(created := w.created + 1)
    case Call(e) => w.(fw := Update(w.fw, e))
    case Abort => w
  }

  /** The fields that the framework calls among the steps write. */
  function Written(steps: seq<Step>): set<Field>
    decreases |steps|
  {
    if steps == [] then {}
    else (if steps[0].Call? then {Target(steps[0].effect)} else {}) + Written(steps[1..])
  }

  /** How many objects of the reported class the steps create. */
  function Creations(steps: seq<Step>): nat
    decreases |steps|
  {
    if steps == [] then 0 else (if steps[0].New? then 1 else 0) + Creations(steps[1..])
  }

  lemma WrittenCons(st: Step, rest: seq<Step>)
    ensures Written([st] + rest) == (if st.Call? then {Target(st.effect)} else {}) + Written(rest)
    ensures Creations([st] + rest) == (if st.New? then 1 else 0) + Creations(rest)
  {
    assert ([st] + rest)[1..] == rest;
  }

  lemma WrittenOne(st: Step)
    ensures Written([st]) == if st.Call? then {Target(st.effect)} else {}
    ensures Creations([st]) == if st.New? then 1 else 0
  {
    assert [st][1..] == [];
  }

  /** The fields written and the objects created by two lists of steps, one after the other. */
  lemma {:induction false} WrittenAppend(a: seq<Step>, b: seq<Step>)
    ensures Written(a + b) == Written(a) + Written(b)
    ensures Creations(a + b) == Creations(a) + Creations(b)
    decreases |a|
  {
    if a == [] {
      assert a + b == b;
    } else {
      assert a + b == [a[0]] + (a[1..] + b);
      WrittenCons(a[0], a[1..] + b);
      WrittenAppend(a[1..], b);
      assert [a[0]] + a[1..] == a;
      WrittenCons(a[0], a[1..]);
    }
  }

  /** Runs the steps in order, stopping at the first `Abort`. */
  function Run(w: World, steps: seq<Step>): (r: World)
    ensures w.created <= r.created <= w.created + Creations(steps)
    decreases |steps|
  {
    if steps == [] then w
    else if steps[0].Abort? then w
    else Run(Apply(w, steps[0]), steps[1..])
  }

  /** The class name `HeaderBroadcasterCache.class.getName()`. */
  const HeaderBroadcasterCache: string := "org.atmosphere.cache.HeaderBroadcasterCache"

  /** The four interceptors a managed service always asks for, in this order. */
  const ManagedInterceptors: seq<string> := [
    "org.atmosphere.interceptor.AtmosphereResourceLifecycleInterceptor",
    "org.atmosphere.interceptor.BroadcastOnPostAtmosphereInterceptor",
    "org.atmosphere.client.TrackMessageSizeInterceptor",
    "org.atmosphere.interceptor.HeartbeatInterceptor"]

  /** `cl.loadClass(cls).newInstance()`, then the steps k if it completes. */
  function Create(o: Oracle, cls: string, k: seq<Step>): (r: seq<Step>)
    ensures Written(r) == if o.CanCreate(cls) then Written(k) else {}
    ensures Creations(r) == if o.CanCreate(cls) then Creations(k) + 1 else 0
  {
    WrittenCons(New, k);
    WrittenOne(Abort);
    if o.CanCreate(cls) then [New] + k else [Abort]
  }

  /** One `broadcasterFilters().add(name)` per declared filter. */
  function FilterSteps(names: seq<string>): (r: seq<Step>)
    ensures Written(r) == if names == [] then {} else {BroadcastFiltersField}
    ensures Creations(r) == 0
    decreases |names|
  {
    if names == [] then []
    else
      WrittenCons(Call(AddBroadcastFilter(names[0])), FilterSteps(names[1..]));
      [Call(AddBroadcastFilter(names[0]))] + FilterSteps(names[1..])
  }

  /** Every string of ss splits into a key and a value. */
  predicate AllPairs(ss: seq<string>)
    decreases |ss|
  {
    ss == [] || (KeyValue(ss[0]).Some? && AllPairs(ss[1..]))
  }

  /** The pairs read from ss before the first string that does not split into key and value. */
  function ParsedPrefix(ss: seq<string>): (r: seq<(string, string)>)
    ensures |r| <= |ss|
    decreases |ss|
  {
    if ss == [] then []
    else match KeyValue(ss[0])
      case None => []
      case Some(kv) => [kv] + ParsedPrefix(ss[1..])
  }

  /** The `atmosphereConfig` loop: one `addInitParameter` per string, aborting at the first that does not split. */
  function ConfigSteps(ss: seq<string>): (r: seq<Step>)
    ensures Written(r) <= {InitParamsField}
    ensures Creations(r) == 0
    decreases |ss|
  {
    if ss == [] then []
    else match KeyValue(ss[0])
      case None => WrittenOne(Abort); [Abort]
      case Some(kv) =>
        WrittenCons(Call(AddInitParameter(kv.0, kv.1)), ConfigSteps(ss[1..]));
        [Call(AddInitParameter(kv.0, kv.1))] + ConfigSteps(ss[1..])
  }

  /** A check with no effect of its own: nothing if it passes, `Abort` if it throws. */
  function Guard(ok: bool): (r: seq<Step>)
    ensures Written(r) == {} && Creations(r) == 0
  {
    WrittenOne(Abort);
    if ok then [] else [Abort]
  }

  /** The `properties` loop's calls on the handler: `setProperty` then `addProperty`, per pair. */
  function PropertyCalls(pairs: seq<(string, string)>): seq<PropertyCall>
    decreases |pairs|
  {
    if pairs == [] then []
    else [SetProperty(pairs[0].0, pairs[0].1), AddProperty(pairs[0].0, pairs[0].1)] + PropertyCalls(pairs[1..])
  }

  /** The property calls of two lists of pairs, one after the other. */
  lemma {:induction false} PropertyCallsAppend(a: seq<(string, string)>, b: seq<(string, string)>)
    ensures PropertyCalls(a + b) == PropertyCalls(a) + PropertyCalls(b)
    decreases |a|
  {
    if a == [] {
      assert a + b == b;
    } else {
      assert (a + b)[0] == a[0] && (a + b)[1..] == a[1..] + b;
      PropertyCallsAppend(a[1..], b);
    }
  }

  /** An annotated handler class that instantiated: the calls that configure and register it. */
  function HandlerSteps(a: Annotation, handler: Obj, o: Oracle): (r: seq<Step>)
    ensures Written(r) <= HandlerFields && DefaultBroadcasterField in Written(r)
    ensures Creations(r) == 0
  {
    var b, g, c, t := BroadcasterSteps(a.broadcaster, a.broadcastFilters), Guard(AllPairs(a.properties)),
                      ConfigSteps(a.atmosphereConfig), RegisterHandlerSteps(a, handler, o);
    WrittenAppend(c, t);
    WrittenAppend(g, c + t);
    WrittenAppend(b, g + (c + t));
    b + (g + (c + t))
  }

  /** The three calls that end the handler branch once every string has parsed. */
  function RegisterHandlerSteps(a: Annotation, handler: Obj, o: Oracle): (r: seq<Step>)
    ensures Written(r) == {HandlersField, BroadcasterCacheField, SessionSupportField}
    ensures Creations(r) == 0
  {
    var register := Call(AddAtmosphereHandler(Registration(a.path, Candidate(handler, PropertyCalls(ParsedPrefix(a.properties))), Chain(a.interceptors, o))));
    var cache, session := Call(SetBroadcasterCache(a.broadcasterCache)), Call(SetSessionSupport(a.supportSession));
    WrittenOne(session);
    WrittenCons(cache, [session]);
    WrittenCons(register, [cache] + [session]);
    [register] + ([cache] + [session])
  }

  function AtmosphereHandlerSteps(cls: string, o: Oracle, next: nat): (r: seq<Step>)
    ensures Written(r) <= HandlerFields
    ensures Creations(r) == if o.CanCreate(cls) then 1 else 0
    ensures !o.CanCreate(cls) ==> r == [Abort]
  {
    WrittenOne(Abort);
    Create(o, cls,
      if (AtmosphereHandlerService, cls) !in o.annotations then [Abort]
      else HandlerSteps(o.annotations[(AtmosphereHandlerService, cls)], Obj(cls, next), o))
  }

  function MeteorSteps(cls: string, o: Oracle): (r: seq<Step>)
    ensures Written(r) <= {DefaultBroadcasterField, BroadcastFiltersField, InitParamsField, HandlersField}
    ensures cls !in o.loadable ==> Written(r) == {}
    ensures Creations(r) == 0
  {
    if cls !in o.loadable || (MeteorService, cls) !in o.annotations then WrittenOne(Abort); [Abort]
    else
      var m := o.annotations[(MeteorService, cls)];
      var b, c := BroadcasterSteps(m.broadcaster, m.broadcastFilters), ConfigSteps(m.atmosphereConfig);
      var t := [Call(AddAtmosphereHandler(Registration(m.path, ServletProcessor(cls), Chain(m.interceptors, o))))];
      WrittenOne(t[0]);
      assert t == [t[0]] + [];
      WrittenAppend(c, t);
      WrittenAppend(b, c + t);
      b + (c + t)
  }

  /** A websocket handler that instantiated: its registration and the calls that configure the broadcaster. */
  function WebSocketRegistrationSteps(m: Annotation, handler: Obj): (r: seq<Step>)
    ensures {WebSocketHandlersField, DefaultBroadcasterField, BroadcasterCacheField} <= Written(r)
    ensures Written(r) <= {WebSocketHandlersField, DefaultBroadcasterField, BroadcastFiltersField, BroadcasterCacheField}
    ensures Creations(r) == 0
  {
    var register, b := Call(RegisterWebSocketHandler(m.path, handler)), BroadcasterSteps(m.broadcaster, m.broadcastFilters);
    var cache := Call(SetBroadcasterCache(m.broadcasterCache));
    WrittenOne(cache);
    WrittenAppend(b, [cache]);
    WrittenCons(register, b + [cache]);
    [register] + (b + [cache])
  }

  function WebSocketHandlerSteps(cls: string, o: Oracle, next: nat): (r: seq<Step>)
    ensures Written(r) <= WebSocketHandlerFields
    ensures |r| > 0 && r[0] == Call(InitWebSocket)
    ensures Creations(r) <= 1
  {
    var rest := if cls !in o.loadable || (WebSocketHandlerService, cls) !in o.annotations || cls !in o.instantiable then [Abort]
      else [New] + WebSocketRegistrationSteps(o.annotations[(WebSocketHandlerService, cls)], Obj(cls, next));
    WrittenOne(Abort);
    WrittenCons(New, rest[1..]);
    assert rest == [rest[0]] + rest[1..];
    WrittenCons(Call(InitWebSocket), rest);
    [Call(InitWebSocket)] + rest
  }

  function InterceptorSteps(cls: string, o: Oracle, next: nat): (r: seq<Step>)
    ensures Written(r) == if o.CanCreate(cls) && cls in o.configurable then {InterceptorsField} else {}
    ensures Creations(r) == if o.CanCreate(cls) then 1 else 0
  {
    WrittenOne(Abort);
    WrittenOne(Call(AddInterceptor(Obj(cls, next))));
    Create(o, cls, if cls in o.configurable then [Call(AddInterceptor(Obj(cls, next)))] else [Abort])
  }

  function ManagedSteps(cls: string, o: Oracle, next: nat): (r: seq<Step>)
    ensures Written(r) == if o.CanCreate(cls) && (ManagedService, cls) in o.annotations then {HandlersField, BroadcasterCacheField} else {}
    ensures Creations(r) == if o.CanCreate(cls) then 1 else 0
  {
    WrittenOne(Abort);
    Create(o, cls,
      if (ManagedService, cls) !in o.annotations then [Abort]
      else ManagedRegistrationSteps(o.annotations[(ManagedService, cls)], Obj(cls, next), o))
  }

  /** The managed service is registered with the four interceptors that load and the listener-attaching one, then the header cache is set. */
  function ManagedRegistrationSteps(a: Annotation, handler: Obj, o: Oracle): (r: seq<Step>)
    ensures Written(r) == {HandlersField, BroadcasterCacheField} && Creations(r) == 0
    ensures |r| > 0 && r[|r| - 1] == Call(SetBroadcasterCache(HeaderBroadcasterCache))
  {
    var chain := Chain(ManagedInterceptors, o) + [ListenerAttacher(a.listeners)];
    var register, cache := Call(AddAtmosphereHandler(Registration(a.path, Candidate(handler, []), chain))),
                           Call(SetBroadcasterCache(HeaderBroadcasterCache));
    WrittenOne(cache);
    WrittenCons(register, [cache]);
    [register] + [cache]
  }

  function ManagedHandlerSteps(cls: string, o: Oracle, next: nat): (r: seq<Step>)
    ensures Written(r) <= {HandlersField}
    ensures Creations(r) == if o.CanCreate(cls) then 2 else 0
  {
    var key := (ManagedAtmosphereHandlerService, cls);
    var k := if key !in o.annotations then [Abort]
      else [Call(AddAtmosphereHandler(Registration(o.annotations[key].path, ManagedWrapper(Obj(cls, next + 1)), [])))];
    WrittenOne(k[0]);
    assert k == [k[0]] + [];
    WrittenCons(New, k);
    Create(o, cls, [New] + k)
  }

  /** The branches that only instantiate the reported class and hand the instance to the framework. */
  predicate HandsOverInstance(kind: Kind)
  {
    kind.BroadcasterCacheInspectorService? || kind.AsyncSupportService? || kind.AsyncSupportListenerService?
    || kind.BroadcasterFactoryService? || kind.BroadcasterListenerService? || kind.EndpoinMapperService?
  }

  /** The framework call such a branch makes with the new instance. */
  function Handover(kind: Kind, instance: Obj): Effect
    requires HandsOverInstance(kind)
  {
    match kind
    case BroadcasterCacheInspectorService => AddCacheInspector(instance)
    case AsyncSupportService => SetAsyncSupport(instance)
    case AsyncSupportListenerService => AddAsyncSupportListener(instance)
    case BroadcasterFactoryService => SetBroadcasterFactory(instance)
    case BroadcasterListenerService => AddBroadcastListener(instance)
    case EndpoinMapperService => SetEndpointMapper(instance)
  }

  /** The fields the handler branch may write. */
  const HandlerFields: set<Field> :=
    {DefaultBroadcasterField, BroadcastFiltersField, InitParamsField, HandlersField, BroadcasterCacheField, SessionSupportField}

  /** The fields the websocket handler branch may write. */
  const WebSocketHandlerFields: set<Field> :=
    {WebSocketInitialisedField, WebSocketHandlersField, DefaultBroadcasterField, BroadcastFiltersField, BroadcasterCacheField}

  /** The fields the branch of each annotation kind may write. */
  function Writes(kind: Kind): set<Field>
  {
    match kind
    case AtmosphereHandlerService => HandlerFields
    case BroadcasterCacheService => {BroadcasterCacheField}
    case BroadcasterCacheInspectorService => {CacheInspectorsField}
    case MeteorService => {DefaultBroadcasterField, BroadcastFiltersField, InitParamsField, HandlersField}
    case BroadcasterFilterService => {BroadcastFiltersField}
    case BroadcasterService => {DefaultBroadcasterField}
    case WebSocketHandlerService => WebSocketHandlerFields
    case WebSocketProtocolService => {WebSocketProtocolField}
    case AtmosphereInterceptorService => {InterceptorsField}
    case AsyncSupportService => {AsyncSupportField}
    case AsyncSupportListenerService => {AsyncSupportListenersField}
    case BroadcasterFactoryService => {BroadcasterFactoryField}
    case BroadcasterListenerService => {BroadcastListenersField}
    case WebSocketProcessorService => {WebSocketProcessorField}
    case ManagedService => {HandlersField, BroadcasterCacheField}
    case EndpoinMapperService => {EndpointMapperField}
    case ManagedAtmosphereHandlerService => {HandlersField}
    case Unlisted(_) => {}
  }

  /** The branch of `reportTypeAnnotation` selected by the annotation; `next` numbers the next object created. */
  function Steps(kind: Kind, cls: string, o: Oracle, next: nat): (r: seq<Step>)
    ensures Written(r) <= Writes(kind) && Creations(r) <= 2
    ensures r == [] <==> kind.Unlisted?
  {
    match kind
    case AtmosphereHandlerService => AtmosphereHandlerSteps(cls, o, next)
    case BroadcasterCacheService =>
      WrittenOne(Call(SetBroadcasterCache(cls)));
      [Call(SetBroadcasterCache(cls))]
    case BroadcasterCacheInspectorService =>
      WrittenOne(Call(AddCacheInspector(Obj(cls, next))));
      Create(o, cls, [Call(AddCacheInspector(Obj(cls, next)))])
    case MeteorService => MeteorSteps(cls, o)
    case BroadcasterFilterService =>
      WrittenOne(Call(AddBroadcastFilter(cls)));
      [Call(AddBroadcastFilter(cls))]
    case BroadcasterService =>
      WrittenOne(Call(SetDefaultBroadcaster(cls)));
      [Call(SetDefaultBroadcaster(cls))]
    case WebSocketHandlerService => WebSocketHandlerSteps(cls, o, next)
    case WebSocketProtocolService =>
      WrittenOne(Call(SetWebSocketProtocol(cls)));
      [Call(SetWebSocketProtocol(cls))]
    case AtmosphereInterceptorService => InterceptorSteps(cls, o, next)
    case AsyncSupportService =>
      WrittenOne(Call(SetAsyncSupport(Obj(cls, next))));
      Create(o, cls, [Call(SetAsyncSupport(Obj(cls, next)))])
    case AsyncSupportListenerService =>
      WrittenOne(Call(AddAsyncSupportListener(Obj(cls, next))));
      Create(o, cls, [Call(AddAsyncSupportListener(Obj(cls, next)))])
    case BroadcasterFactoryService =>
      WrittenOne(Call(SetBroadcasterFactory(Obj(cls, next))));
      Create(o, cls, [Call(SetBroadcasterFactory(Obj(cls, next)))])
    case BroadcasterListenerService =>
      WrittenOne(Call(AddBroadcastListener(Obj(cls, next))));
      Create(o, cls, [Call(AddBroadcastListener(Obj(cls, next)))])
    case WebSocketProcessorService =>
      WrittenOne(Call(SetWebSocketProcessor(cls)));
      [Call(SetWebSocketProcessor(cls))]
    case ManagedService => ManagedSteps(cls, o, next)
    case EndpoinMapperService =>
      WrittenOne(Call(SetEndpointMapper(Obj(cls, next))));
      Create(o, cls, [Call(SetEndpointMapper(Obj(cls, next)))])
    case ManagedAtmosphereHandlerService => ManagedHandlerSteps(cls, o, next)
    case Unlisted(_) => []
  }

  /** The state after one report. */
  function Report(w: World, kind: Kind, cls: string, o: Oracle): (r: World)
    ensures w.created <= r.created <= w.created + 2
  {
    Run(w, Steps(kind, cls, o, w.created))
  }

  /** A report writes only the fields of its kind, and takes nothing away. */
  lemma ReportFrame(w: World, kind: Kind, cls: string, o: Oracle)
    ensures SameExcept(w.fw, Report(w, kind, cls, o).fw, Writes(kind))
    ensures Grows(w.fw, Report(w, kind, cls, o).fw)
  {
    var steps := Steps(kind, cls, o, w.created);
    RunFrame(w, steps);
    SameExceptWider(w.fw, Run(w, steps).fw, Written(steps), Writes(kind));
  }

  /** The state after a sequence of reports, in the order the detector delivers them. */
  function ScanAll(w: World, reports: seq<(Kind, string)>, o: Oracle): (r: World)
    ensures Grows(w.fw, r.fw) && w.created <= r.created
    decreases |reports|
  {
    if reports == [] then w
    else
      var w1 := Report(w, reports[0].0, reports[0].1, o);
      ReportFrame(w, reports[0].0, reports[0].1, o);
      GrowsTrans(w.fw, w1.fw, ScanAll(w1, reports[1..], o).fw);
      ScanAll(w1, reports[1..], o)
  }

  // Running a list, one step at a time.

  /** A run changes only the fields its calls write, and takes nothing away. */
  lemma {:induction false} RunFrame(w: World, steps: seq<Step>)
    ensures SameExcept(w.fw, Run(w, steps).fw, Written(steps))
    ensures Grows(w.fw, Run(w, steps).fw)
    decreases |steps|
  {
    if steps == [] || steps[0].Abort? {
      assert Run(w, steps) == w;
    } else {
      var w1, r := Apply(w, steps[0]), Run(w, steps);
      assert r == Run(w1, steps[1..]);
      RunFrame(w1, steps[1..]);
      var first: set<Field> := if steps[0].Call? then {Target(steps[0].effect)} else {};
      assert Written(steps) == first + Written(steps[1..]);
      if steps[0].Call? {
        UpdateFrame(w.fw, steps[0].effect);
      }
      assert SameExcept(w.fw, w1.fw, first) && Grows(w.fw, w1.fw);
      SameExceptTrans(w.fw, w1.fw, r.fw, first, Written(steps[1..]));
      GrowsTrans(w.fw, w1.fw, r.fw);
    }
  }

  lemma RunCons(w: World, st: Step, rest: seq<Step>)
    ensures Run(w, [st] + rest) == if st.Abort? then w else Run(Apply(w, st), rest)
  {
    assert ([st] + rest)[1..] == rest;
  }

  lemma RunCall(w: World, e: Effect)
    ensures Run(w, [Call(e)]) == w.(fw := Update(w.fw, e))
  {
    RunCons(w, Call(e), []);
    assert [Call(e)] + [] == [Call(e)];
  }

  lemma RunAbort(w: World, rest: seq<Step>)
    ensures Run(w, [Abort] + rest) == w
  {
  }

  /** A branch that starts with `newInstance()`: one more object, then the rest; nothing if it throws. */
  lemma RunCreate(w: World, o: Oracle, cls: string, k: seq<Step>)
    ensures Run(w, Create(o, cls, k)) == if o.CanCreate(cls) then Run(w.(created := w.created + 1), k) else w
  {
    if o.CanCreate(cls) {
      RunCons(w, New, k);
    } else {
      RunAbort(w, []);
      assert [Abort] + [] == [Abort];
    }
  }

  /** A branch that creates the reported class and makes one call with the new object. */
  lemma HandoverSteps(kind: Kind, cls: string, o: Oracle, next: nat)
    requires HandsOverInstance(kind)
    ensures Steps(kind, cls, o, next) == Create(o, cls, [Call(Handover(kind, Obj(cls, next)))])
  {
  }

  lemma RunCreateCall(w: World, o: Oracle, cls: string, e: Effect)
    ensures Run(w, Create(o, cls, [Call(e)]))
         == if o.CanCreate(cls) then w.(fw := Update(w.fw, e), created := w.created + 1) else w
  {
    RunCreate(w, o, cls, [Call(e)]);
    RunCall(w.(created := w.created + 1), e);
  }

  /** The state with the filters appended. */
  function WithFilters(w: World, names: seq<string>): World
  {
    w.(fw := w.fw.(broadcastFilters := w.fw.broadcastFilters + names))
  }

  lemma WithFiltersCons(w: World, name: string, names: seq<string>)
    ensures WithFilters(Apply(w, Call(AddBroadcastFilter(name))), names) == WithFilters(w, [name] + names)
  {
    assert w.fw.broadcastFilters + [name] + names == w.fw.broadcastFilters + ([name] + names);
  }

  /** The filter loop appends exactly the declared filters, in order. */
  lemma {:induction false} FilterStepsRun(w: World, names: seq<string>, rest: seq<Step>)
    ensures Run(w, FilterSteps(names) + rest) == Run(WithFilters(w, names), rest)
    decreases |names|
  {
    if names == [] {
      assert FilterSteps(names) + rest == rest;
      assert WithFilters(w, []) == w;
    } else {
      var st := Call(AddBroadcastFilter(names[0]));
      assert FilterSteps(names) + rest == [st] + (FilterSteps(names[1..]) + rest);
      RunCons(w, st, FilterSteps(names[1..]) + rest);
      FilterStepsRun(Apply(w, st), names[1..], rest);
      WithFiltersCons(w, names[0], names[1..]);
      assert [names[0]] + names[1..] == names;
    }
  }

  /** The broadcaster part shared by the handler, Meteor and websocket branches: the default broadcaster, then the filters. */
  function BroadcasterSteps(broadcaster: string, filters: seq<string>): (r: seq<Step>)
    ensures Written(r) == if filters == [] then {DefaultBroadcasterField} else {DefaultBroadcasterField, BroadcastFiltersField}
    ensures Creations(r) == 0
  {
    WrittenCons(Call(SetDefaultBroadcaster(broadcaster)), FilterSteps(filters));
    [Call(SetDefaultBroadcaster(broadcaster))] + FilterSteps(filters)
  }

  /** The state with the default broadcaster set and the filters appended. */
  function WithBroadcaster(w: World, broadcaster: string, filters: seq<string>): World
  {
    w.(fw := w.fw.(defaultBroadcaster := broadcaster, broadcastFilters := w.fw.broadcastFilters + filters))
  }

  lemma BroadcasterStepsRun(w: World, broadcaster: string, filters: seq<string>, rest: seq<Step>)
    ensures Run(w, BroadcasterSteps(broadcaster, filters) + rest) == Run(WithBroadcaster(w, broadcaster, filters), rest)
  {
    var st := Call(SetDefaultBroadcaster(broadcaster));
    assert BroadcasterSteps(broadcaster, filters) + rest == [st] + (FilterSteps(filters) + rest);
    RunCons(w, st, FilterSteps(filters) + rest);
    FilterStepsRun(Apply(w, st), filters, rest);
    assert WithFilters(Apply(w, st), filters) == WithBroadcaster(w, broadcaster, filters);
  }

  lemma AllPairsCons(ss: seq<string>)
    requires ss != []
    ensures AllPairs(ss) <==> KeyValue(ss[0]).Some? && AllPairs(ss[1..])
  {
  }

  /** `AllPairs` holds exactly when no string of the list fails to split. */
  lemma {:induction false} AllPairsEvery(ss: seq<string>)
    ensures AllPairs(ss) <==> forall i :: 0 <= i < |ss| ==> KeyValue(ss[i]).Some?
    decreases |ss|
  {
    if ss != [] {
      AllPairsEvery(ss[1..]);
      if forall i :: 0 <= i < |ss| ==> KeyValue(ss[i]).Some? {
        forall i | 0 <= i < |ss| - 1 ensures KeyValue(ss[1..][i]).Some? {
          assert ss[1..][i] == ss[i + 1];
        }
      }
      if AllPairs(ss) {
        forall i | 0 <= i < |ss| ensures KeyValue(ss[i]).Some? {
          if i > 0 { assert ss[i] == ss[1..][i - 1]; }
        }
      }
    }
  }

  /** The state with the pairs appended to the init parameters. */
  function WithInitParams(w: World, pairs: seq<(string, string)>): World
  {
    w.(fw := w.fw.(initParams := w.fw.initParams + pairs))
  }

  lemma WithInitParamsCons(w: World, kv: (string, string), pairs: seq<(string, string)>)
    ensures WithInitParams(Apply(w, Call(AddInitParameter(kv.0, kv.1))), pairs) == WithInitParams(w, [kv] + pairs)
  {
    assert w.fw.initParams + [kv] + pairs == w.fw.initParams + ([kv] + pairs);
  }

  /** Where the string at index i stands relative to the parsed prefix. */
  lemma {:induction false} ParsedPrefixAt(ss: seq<string>, i: nat)
    requires i < |ss| && i <= |ParsedPrefix(ss)|
    ensures i < |ParsedPrefix(ss)| <==> KeyValue(ss[i]).Some?
    ensures i < |ParsedPrefix(ss)| ==> KeyValue(ss[i]) == Some(ParsedPrefix(ss)[i])
    ensures i == |ParsedPrefix(ss)| ==> !AllPairs(ss)
    decreases i
  {
    if i > 0 {
      assert ss[1..][i - 1] == ss[i];
      ParsedPrefixAt(ss[1..], i - 1);
      AllPairsCons(ss);
    } else {
      AllPairsCons(ss);
    }
  }

  /** The prefix is the whole list exactly when every string splits. */
  lemma {:induction false} ParsedPrefixAll(ss: seq<string>)
    ensures |ParsedPrefix(ss)| == |ss| <==> AllPairs(ss)
    decreases |ss|
  {
    if ss != [] {
      AllPairsCons(ss);
      ParsedPrefixAll(ss[1..]);
    }
  }

  /** The init-parameter loop appends the parsed prefix; it continues only when every string parsed. */
  lemma {:induction false} ConfigStepsRun(w: World, ss: seq<string>, rest: seq<Step>)
    ensures Run(w, ConfigSteps(ss) + rest)
         == if AllPairs(ss) then Run(WithInitParams(w, ParsedPrefix(ss)), rest) else WithInitParams(w, ParsedPrefix(ss))
    decreases |ss|
  {
    if ss == [] {
      assert ConfigSteps(ss) + rest == rest;
      assert WithInitParams(w, []) == w;
    } else {
      AllPairsCons(ss);
      match KeyValue(ss[0])
      case None =>
        assert ConfigSteps(ss) + rest == [Abort] + rest;
        RunCons(w, Abort, rest);
        assert WithInitParams(w, []) == w;
      case Some(kv) =>
        var st := Call(AddInitParameter(kv.0, kv.1));
        ConfigStepsCons(ss, kv, rest);
        RunCons(w, st, ConfigSteps(ss[1..]) + rest);
        ConfigStepsRun(Apply(w, st), ss[1..], rest);
        WithInitParamsCons(w, kv, ParsedPrefix(ss[1..]));
    }
  }

  lemma ConfigStepsCons(ss: seq<string>, kv: (string, string), rest: seq<Step>)
    requires ss != [] && KeyValue(ss[0]) == Some(kv)
    ensures ConfigSteps(ss) + rest == [Call(AddInitParameter(kv.0, kv.1))] + (ConfigSteps(ss[1..]) + rest)
    ensures ParsedPrefix(ss) == [kv] + ParsedPrefix(ss[1..])
  {
    var st := Call(AddInitParameter(kv.0, kv.1));
    ConfigStepsHead(ss, kv);
    ConsAppend(st, ConfigSteps(ss[1..]), rest);
  }

  lemma ConfigStepsHead(ss: seq<string>, kv: (string, string))
    requires ss != [] && KeyValue(ss[0]) == Some(kv)
    ensures ConfigSteps(ss) == [Call(AddInitParameter(kv.0, kv.1))] + ConfigSteps(ss[1..])
    ensures ParsedPrefix(ss) == [kv] + ParsedPrefix(ss[1..])
  {
  }

  lemma {:induction false} ScanAllAppend(w: World, a: seq<(Kind, string)>, b: seq<(Kind, string)>, o: Oracle)
    ensures ScanAll(w, a + b, o) == ScanAll(ScanAll(w, a, o), b, o)
    decreases |a|
  {
    if a == [] {
      assert a + b == b;
    } else {
      assert (a + b)[0] == a[0] && (a + b)[1..] == a[1..] + b;
      ScanAllAppend(Report(w, a[0].0, a[0].1, o), a[1..], b, o);
    }
  }
}
