/**
 * The part of the framework configuration the annotation processor writes to.
 * The framework's own code is not part of this model: every mutator is
 * assumed to overwrite its field (a setter) or to append to its list (an
 * adder), which is what `Update` states and the `Framework` class implements.
 * The handler table and the init parameters are kept as lists of calls, so
 * two registrations of one path, or two values for one key, both stay visible.
 */
module Configuration {
  import opened Options
  import opened Reflection
  import opened Chains

  /** A call made through `IntrospectionUtils` on a handler. */
  datatype PropertyCall = SetProperty(name: string, value: string) | AddProperty(name: string, value: string)

  /** The handler object registered at a path. */
  datatype Handler =
    | Candidate(obj: Obj, calls: seq<PropertyCall>)   // the annotated class itself, with the property calls made on it
    | ServletProcessor(servletClassName: string)      // a ReflectorServletProcessor bound to a servlet class name
    | ManagedWrapper(target: Obj)                     // a ManagedAtmosphereHandler wrapping an instance

  /** One `addAtmosphereHandler(path, handler, interceptors)` call. */
  datatype Registration = Registration(path: string, handler: Handler, chain: seq<Interceptor>)

  /** The configuration state, one field per framework attribute the processor writes. */
  datatype Config = Config(
    defaultBroadcaster: string,
    broadcastFilters: seq<string>,
    initParams: seq<(string, string)>,
    handlers: seq<Registration>,
    broadcasterCache: string,
    sessionSupport: bool,
    webSocketInitialised: bool,
    webSocketHandlers: seq<(string, Obj)>,
    webSocketProtocol: string,
    webSocketProcessor: string,
    interceptors: seq<Obj>,
    cacheInspectors: seq<Obj>,
    asyncSupport: Option<Obj>,
    asyncSupportListeners: seq<Obj>,
    broadcasterFactory: Option<Obj>,
    broadcastListeners: seq<Obj>,
    endpointMapper: Option<Obj>)

  /** A mutating call on the framework, as issued by the processor. */
  datatype Effect =
    | SetDefaultBroadcaster(name: string)
    | AddBroadcastFilter(name: string)
    | AddInitParameter(key: string, value: string)
    | AddAtmosphereHandler(registration: Registration)
    | SetBroadcasterCache(name: string)
    | SetSessionSupport(enabled: bool)
    | InitWebSocket
    | RegisterWebSocketHandler(path: string, handler: Obj)
    | SetWebSocketProtocol(name: string)
    | SetWebSocketProcessor(name: string)
    | AddInterceptor(interceptor: Obj)
    | AddCacheInspector(inspector: Obj)
    | SetAsyncSupport(support: Obj)
    | AddAsyncSupportListener(listener: Obj)
    | SetBroadcasterFactory(factory: Obj)
    | AddBroadcastListener(listener: Obj)
    | SetEndpointMapper(mapper: Obj)

  /** The configuration fields, one per attribute the processor writes. */
  datatype Field =
    | DefaultBroadcasterField | BroadcastFiltersField | InitParamsField | HandlersField
    | BroadcasterCacheField | SessionSupportField | WebSocketInitialisedField | WebSocketHandlersField
    | WebSocketProtocolField | WebSocketProcessorField | InterceptorsField | CacheInspectorsField
    | AsyncSupportField | AsyncSupportListenersField | BroadcasterFactoryField | BroadcastListenersField
    | EndpointMapperField

  /** The field a call writes. */
  function Target(e: Effect): Field
  {
    match e
    case SetDefaultBroadcaster(_) => DefaultBroadcasterField
    case AddBroadcastFilter(_) => BroadcastFiltersField
    case AddInitParameter(_, _) => InitParamsField
    case AddAtmosphereHandler(_) => HandlersField
    case SetBroadcasterCache(_) => BroadcasterCacheField
    case SetSessionSupport(_) => SessionSupportField
    case InitWebSocket => WebSocketInitialisedField
    case RegisterWebSocketHandler(_, _) => WebSocketHandlersField
    case SetWebSocketProtocol(_) => WebSocketProtocolField
    case SetWebSocketProcessor(_) => WebSocketProcessorField
    case AddInterceptor(_) => InterceptorsField
    case AddCacheInspector(_) => CacheInspectorsField
    case SetAsyncSupport(_) => AsyncSupportField
    case AddAsyncSupportListener(_) => AsyncSupportListenersField
    case SetBroadcasterFactory(_) => BroadcasterFactoryField
    case AddBroadcastListener(_) => BroadcastListenersField
    case SetEndpointMapper(_) => EndpointMapperField
  }

  /** c and d agree on every field outside fs. */
  predicate SameExcept(c: Config, d: Config, fs: set<Field>)
  {
    (DefaultBroadcasterField !in fs ==> d.defaultBroadcaster == c.defaultBroadcaster)
    && (BroadcastFiltersField !in fs ==> d.broadcastFilters == c.broadcastFilters)
    && (InitParamsField !in fs ==> d.initParams == c.initParams)
    && (HandlersField !in fs ==> d.handlers == c.handlers)
    && (BroadcasterCacheField !in fs ==> d.broadcasterCache == c.broadcasterCache)
    && (SessionSupportField !in fs ==> d.sessionSupport == c.sessionSupport)
    && (WebSocketInitialisedField !in fs ==> d.webSocketInitialised == c.webSocketInitialised)
    && (WebSocketHandlersField !in fs ==> d.webSocketHandlers == c.webSocketHandlers)
    && (WebSocketProtocolField !in fs ==> d.webSocketProtocol == c.webSocketProtocol)
    && (WebSocketProcessorField !in fs ==> d.webSocketProcessor == c.webSocketProcessor)
    && (InterceptorsField !in fs ==> d.interceptors == c.interceptors)
    && (CacheInspectorsField !in fs ==> d.cacheInspectors == c.cacheInspectors)
    && (AsyncSupportField !in fs ==> d.asyncSupport == c.asyncSupport)
    && (AsyncSupportListenersField !in fs ==> d.asyncSupportListeners == c.asyncSupportListeners)
    && (BroadcasterFactoryField !in fs ==> d.broadcasterFactory == c.broadcasterFactory)
    && (BroadcastListenersField !in fs ==> d.broadcastListeners == c.broadcastListeners)
    && (EndpointMapperField !in fs ==> d.endpointMapper == c.endpointMapper)
  }

  /**
   * Nothing is ever taken away: every list of d starts with the
   * corresponding list of c, and an initialised websocket stays initialised.
   */
  predicate Grows(c: Config, d: Config)
  {
    c.broadcastFilters <= d.broadcastFilters
    && c.initParams <= d.initParams
    && c.handlers <= d.handlers
    && (c.webSocketInitialised ==> d.webSocketInitialised)
    && c.webSocketHandlers <= d.webSocketHandlers
    && c.interceptors <= d.interceptors
    && c.cacheInspectors <= d.cacheInspectors
    && c.asyncSupportListeners <= d.asyncSupportListeners
    && c.broadcastListeners <= d.broadcastListeners
  }

  /** The configuration after one call: a setter overwrites its field, an adder appends. */
  function Update(c: Config, e: Effect): Config
  {
    match e
    case SetDefaultBroadcaster(n) => c.(defaultBroadcaster := n)
    case AddBroadcastFilter(n) => c.(broadcastFilters := c.broadcastFilters + [n])
    case AddInitParameter(k, v) => c.(initParams := c.initParams + [(k, v)])
    case AddAtmosphereHandler(r) => c.(handlers := c.handlers + [r])
    case SetBroadcasterCache(n) => c.(broadcasterCache := n)
    case SetSessionSupport(b) => c.(sessionSupport := b)
    case InitWebSocket => c.(webSocketInitialised := true)
    case RegisterWebSocketHandler(p, h) => c.(webSocketHandlers := c.webSocketHandlers + [(p, h)])
    case SetWebSocketProtocol(n) => c.(webSocketProtocol := n)
    case SetWebSocketProcessor(n) => c.(webSocketProcessor := n)
    case AddInterceptor(i) => c.(interceptors := c.interceptors + [i])
    case AddCacheInspector(i) => c.(cacheInspectors := c.cacheInspectors + [i])
    case SetAsyncSupport(a) => c.(asyncSupport := Some(a))
    case AddAsyncSupportListener(l) => c.(asyncSupportListeners := c.asyncSupportListeners + [l])
    case SetBroadcasterFactory(f) => c.(broadcasterFactory := Some(f))
    case AddBroadcastListener(l) => c.(broadcastListeners := c.broadcastListeners + [l])
    case SetEndpointMapper(m) => c.(endpointMapper := Some(m))
  }

  /** The calls that append to a list, rather than overwrite a value. */
  predicate Appends(e: Effect)
  {
    e.AddBroadcastFilter? || e.AddInitParameter? || e.AddAtmosphereHandler? || e.RegisterWebSocketHandler?
    || e.AddInterceptor? || e.AddCacheInspector? || e.AddAsyncSupportListener? || e.AddBroadcastListener?
  }

  /** A call writes only its own field, and an adder only appends. */
  lemma UpdateFrame(c: Config, e: Effect)
    ensures SameExcept(c, Update(c, e), {Target(e)})
    ensures Grows(c, Update(c, e))
  {
    if Appends(e) {
      AdderFrame(c, e);
    } else if SetsName(e) {
      NameSetterFrame(c, e);
    } else if SetsFlag(e) {
      FlagSetterFrame(c, e);
    } else {
      SetterFrame(c, e);
    }
  }

  /** An adder appends to its own list and changes nothing else. */
  lemma AdderFrame(c: Config, e: Effect)
    requires Appends(e)
    ensures SameExcept(c, Update(c, e), {Target(e)})
    ensures Grows(c, Update(c, e))
  {
  }

  /** The calls that overwrite a class name. */
  predicate SetsName(e: Effect)
  {
    e.SetDefaultBroadcaster? || e.SetBroadcasterCache? || e.SetWebSocketProtocol? || e.SetWebSocketProcessor?
  }

  /** A class-name setter overwrites its own name and changes nothing else. */
  lemma NameSetterFrame(c: Config, e: Effect)
    requires SetsName(e)
    ensures SameExcept(c, Update(c, e), {Target(e)})
    ensures Grows(c, Update(c, e))
  {
  }

  /** The calls that set a flag. */
  predicate SetsFlag(e: Effect)
  {
    e.SetSessionSupport? || e.InitWebSocket?
  }

  /** A flag setter changes its own flag and nothing else. */
  lemma FlagSetterFrame(c: Config, e: Effect)
    requires SetsFlag(e)
    ensures SameExcept(c, Update(c, e), {Target(e)})
    ensures Grows(c, Update(c, e))
  {
  }

  /** A setter of an object overwrites its own value and changes nothing else. */
  lemma SetterFrame(c: Config, e: Effect)
    requires !Appends(e) && !SetsName(e) && !SetsFlag(e)
    ensures SameExcept(c, Update(c, e), {Target(e)})
    ensures Grows(c, Update(c, e))
  {
  }

  lemma SameExceptTrans(c: Config, d: Config, e: Config, fs: set<Field>, gs: set<Field>)
    requires SameExcept(c, d, fs) && SameExcept(d, e, gs)
    ensures SameExcept(c, e, fs + gs)
  {
  }

  lemma SameExceptWider(c: Config, d: Config, fs: set<Field>, gs: set<Field>)
    requires SameExcept(c, d, fs) && fs <= gs
    ensures SameExcept(c, d, gs)
  {
  }

  lemma GrowsTrans(c: Config, d: Config, e: Config)
    requires Grows(c, d) && Grows(d, e)
    ensures Grows(c, e)
  {
  }

  /** The shared framework object, updated in place by the processor. */
  class Framework {
    var defaultBroadcaster: string
    var broadcastFilters: seq<string>
    var initParams: seq<(string, string)>
    var handlers: seq<Registration>
    var broadcasterCache: string
    var sessionSupport: bool
    var webSocketInitialised: bool
    var webSocketHandlers: seq<(string, Obj)>
    var webSocketProtocol: string
    var webSocketProcessor: string
    var interceptors: seq<Obj>
    var cacheInspectors: seq<Obj>
    var asyncSupport: Option<Obj>
    var asyncSupportListeners: seq<Obj>
    var broadcasterFactory: Option<Obj>
    var broadcastListeners: seq<Obj>
    var endpointMapper: Option<Obj>

    /** The current state as a value. */
    function Snapshot(): Config
      reads this
    {
      Config(defaultBroadcaster, broadcastFilters, initParams, handlers, broadcasterCache,
             sessionSupport, webSocketInitialised, webSocketHandlers, webSocketProtocol,
             webSocketProcessor, interceptors, cacheInspectors, asyncSupport,
             asyncSupportListeners, broadcasterFactory, broadcastListeners, endpointMapper)
    }

    constructor (initial: Config)
      ensures Snapshot() == initial
    {
      defaultBroadcaster := initial.defaultBroadcaster;
      broadcastFilters := initial.broadcastFilters;
      initParams := initial.initParams;
      handlers := initial.handlers;
      broadcasterCache := initial.broadcasterCache;
      sessionSupport := initial.sessionSupport;
      webSocketInitialised := initial.webSocketInitialised;
      webSocketHandlers := initial.webSocketHandlers;
      webSocketProtocol := initial.webSocketProtocol;
      webSocketProcessor := initial.webSocketProcessor;
      interceptors := initial.interceptors;
      cacheInspectors := initial.cacheInspectors;
      asyncSupport := initial.asyncSupport;
      asyncSupportListeners := initial.asyncSupportListeners;
      broadcasterFactory := initial.broadcasterFactory;
      broadcastListeners := initial.broadcastListeners;
      endpointMapper := initial.endpointMapper;
    }

    method SetDefaultBroadcasterClassName(name: string)
      modifies this`defaultBroadcaster
      ensures Snapshot() == Update(old(Snapshot()), SetDefaultBroadcaster(name))
    {
      defaultBroadcaster := name;
    }

    /** `broadcasterFilters().add(name)`. */
    method AddBroadcasterFilter(name: string)
      modifies this`broadcastFilters
      ensures Snapshot() == Update(old(Snapshot()), AddBroadcastFilter(name))
    {
      broadcastFilters := broadcastFilters + [name];
    }

    method AddInitParameter(key: string, value: string)
      modifies this`initParams
      ensures Snapshot() == Update(old(Snapshot()), Effect.AddInitParameter(key, value))
    {
      initParams := initParams + [(key, value)];
    }

    method AddAtmosphereHandler(path: string, handler: Handler, chain: seq<Interceptor>)
      modifies this`handlers
      ensures Snapshot() == Update(old(Snapshot()), Effect.AddAtmosphereHandler(Registration(path, handler, chain)))
    {
      handlers := handlers + [Registration(path, handler, chain)];
    }

    method SetBroadcasterCacheClassName(name: string)
      modifies this`broadcasterCache
      ensures Snapshot() == Update(old(Snapshot()), SetBroadcasterCache(name))
    {
      broadcasterCache := name;
    }

    /** `sessionSupport(enabled)`. */
    method SessionSupport(enabled: bool)
      modifies this`sessionSupport
      ensures Snapshot() == Update(old(Snapshot()), SetSessionSupport(enabled))
    {
      sessionSupport := enabled;
    }

    method InitWebSocket()
      modifies this`webSocketInitialised
      ensures Snapshot() == Update(old(Snapshot()), Effect.InitWebSocket)
    {
      webSocketInitialised := true;
    }

    /** The default websocket processor's `registerWebSocketHandler(path, handler)`. */
    method RegisterWebSocketHandler(path: string, handler: Obj)
      modifies this`webSocketHandlers
      ensures Snapshot() == Update(old(Snapshot()), Effect.RegisterWebSocketHandler(path, handler))
    {
      webSocketHandlers := webSocketHandlers + [(path, handler)];
    }

    method SetWebSocketProtocolClassName(name: string)
      modifies this`webSocketProtocol
      ensures Snapshot() == Update(old(Snapshot()), SetWebSocketProtocol(name))
    {
      webSocketProtocol := name;
    }

    method SetWebsocketProcessorClassName(name: string)
      modifies this`webSocketProcessor
      ensures Snapshot() == Update(old(Snapshot()), SetWebSocketProcessor(name))
    {
      webSocketProcessor := name;
    }

    /** `interceptor(i)`: a global interceptor is appended. */
    method Interceptor(i: Obj)
      modifies this`interceptors
      ensures Snapshot() == Update(old(Snapshot()), AddInterceptor(i))
    {
      interceptors := interceptors + [i];
    }

    /** `addBroadcasterCacheInjector(i)`. */
    method AddBroadcasterCacheInspector(i: Obj)
      modifies this`cacheInspectors
      ensures Snapshot() == Update(old(Snapshot()), AddCacheInspector(i))
    {
      cacheInspectors := cacheInspectors + [i];
    }

    method SetAsyncSupportTo(support: Obj)
      modifies this`asyncSupport
      ensures Snapshot() == Update(old(Snapshot()), SetAsyncSupport(support))
    {
      asyncSupport := Some(support);
    }

    /** `asyncSupportListener(l)`. */
    method AsyncSupportListener(l: Obj)
      modifies this`asyncSupportListeners
      ensures Snapshot() == Update(old(Snapshot()), AddAsyncSupportListener(l))
    {
      asyncSupportListeners := asyncSupportListeners + [l];
    }

    method SetBroadcasterFactoryTo(factory: Obj)
      modifies this`broadcasterFactory
      ensures Snapshot() == Update(old(Snapshot()), SetBroadcasterFactory(factory))
    {
      broadcasterFactory := Some(factory);
    }

    method AddBroadcasterListener(l: Obj)
      modifies this`broadcastListeners
      ensures Snapshot() == Update(old(Snapshot()), AddBroadcastListener(l))
    {
      broadcastListeners := broadcastListeners + [l];
    }

    /** `endPointMapper(m)`. */
    method EndPointMapper(m: Obj)
      modifies this`endpointMapper
      ensures Snapshot() == Update(old(Snapshot()), SetEndpointMapper(m))
    {
      endpointMapper := Some(m);
    }
  }
}
