/**
 * What one report does, branch by branch, stated on the step-list model
 * (which the processor's methods are proved to follow): which fields a
 * branch writes, where it stops when a step throws, and what stays in place
 * when it does.
 */
module Properties {
  import opened Options
  import opened NameValue
  import opened Reflection
  import opened Chains
  import opened Configuration
  import opened Wiring

  // The parsed pairs and the property calls made from them.

  /** When every string splits, the pairs are exactly the strings' keys and values, in order. */
  lemma ParsedPrefixComplete(ss: seq<string>)
    requires AllPairs(ss)
    ensures |ParsedPrefix(ss)| == |ss|
    ensures forall i :: 0 <= i < |ss| ==> KeyValue(ss[i]) == Some(ParsedPrefix(ss)[i])
  {
    ParsedPrefixAll(ss);
    forall i | 0 <= i < |ss| ensures KeyValue(ss[i]) == Some(ParsedPrefix(ss)[i]) {
      ParsedPrefixAt(ss, i);
    }
  }

  /** Each pair gives `setProperty` and then `addProperty` with the same name and value, pair after pair. */
  lemma {:induction false} PropertyCallsAt(pairs: seq<(string, string)>)
    ensures |PropertyCalls(pairs)| == 2 * |pairs|
    ensures forall i :: 0 <= i < |pairs| ==>
              PropertyCalls(pairs)[2 * i] == SetProperty(pairs[i].0, pairs[i].1)
              && PropertyCalls(pairs)[2 * i + 1] == AddProperty(pairs[i].0, pairs[i].1)
    decreases |pairs|
  {
    if pairs != [] {
      PropertyCallsAt(pairs[1..]);
      var calls := PropertyCalls(pairs);
      var rest := PropertyCalls(pairs[1..]);
      forall i | 0 <= i < |pairs|
        ensures calls[2 * i] == SetProperty(pairs[i].0, pairs[i].1)
        ensures calls[2 * i + 1] == AddProperty(pairs[i].0, pairs[i].1)
      {
        if i > 0 {
          assert pairs[i] == pairs[1..][i - 1];
          assert calls[2 * i] == rest[2 * (i - 1)];
          assert calls[2 * i + 1] == rest[2 * (i - 1) + 1];
        }
      }
    }
  }

  // The handler branch (AtmosphereHandlerService).

  /** The three closing calls: the registration is appended, then the cache and the session flag are set. */
  lemma RunRegisterHandlerSteps(w: World, a: Annotation, handler: Obj, o: Oracle)
    ensures Run(w, RegisterHandlerSteps(a, handler, o))
         == w.(fw := w.fw.(handlers := w.fw.handlers + [Registration(a.path, Candidate(handler, PropertyCalls(ParsedPrefix(a.properties))), Chain(a.interceptors, o))],
                           broadcasterCache := a.broadcasterCache,
                           sessionSupport := a.supportSession))
  {
    var register := Call(AddAtmosphereHandler(Registration(a.path, Candidate(handler, PropertyCalls(ParsedPrefix(a.properties))), Chain(a.interceptors, o))));
    var cache := Call(SetBroadcasterCache(a.broadcasterCache));
    var session := Call(SetSessionSupport(a.supportSession));
    assert RegisterHandlerSteps(a, handler, o) == [register] + ([cache] + [session]);
    RunCons(w, register, [cache] + [session]);
    var w1 := Apply(w, register);
    RunCons(w1, cache, [session]);
    RunCall(Apply(w1, cache), SetSessionSupport(a.supportSession));
  }

  /**
   * An instantiated handler with its annotation: the broadcaster and filters
   * are always set; a property that does not split stops the branch there; a
   * config string that does not split stops it after the pairs before it;
   * only when everything splits is the handler registered.
   */
  lemma RunHandlerSteps(w: World, a: Annotation, handler: Obj, o: Oracle)
    ensures var wb := WithBroadcaster(w, a.broadcaster, a.broadcastFilters);
            var wi := WithInitParams(wb, ParsedPrefix(a.atmosphereConfig));
            Run(w, HandlerSteps(a, handler, o))
            == if !AllPairs(a.properties) then wb
               else if !AllPairs(a.atmosphereConfig) then wi
               else Run(wi, RegisterHandlerSteps(a, handler, o))
  {
    var tail := RegisterHandlerSteps(a, handler, o);
    var afterProps := ConfigSteps(a.atmosphereConfig) + tail;
    BroadcasterStepsRun(w, a.broadcaster, a.broadcastFilters, Guard(AllPairs(a.properties)) + afterProps);
    var wb := WithBroadcaster(w, a.broadcaster, a.broadcastFilters);
    if AllPairs(a.properties) {
      assert Guard(true) + afterProps == afterProps;
      ConfigStepsRun(wb, a.atmosphereConfig, tail);
    } else {
      RunAbort(wb, afterProps);
    }
  }

  /** A handler class whose `newInstance()` throws changes nothing. */
  lemma HandlerNotCreated(w: World, cls: string, o: Oracle)
    requires !o.CanCreate(cls)
    ensures Report(w, AtmosphereHandlerService, cls, o) == w
  {
    RunCreate(w, o, cls, if (AtmosphereHandlerService, cls) !in o.annotations then [Abort]
                         else HandlerSteps(o.annotations[(AtmosphereHandlerService, cls)], Obj(cls, w.created), o));
  }

  /** A handler class without the annotation is instantiated, and nothing else happens. */
  lemma HandlerWithoutAnnotation(w: World, cls: string, o: Oracle)
    requires o.CanCreate(cls) && (AtmosphereHandlerService, cls) !in o.annotations
    ensures Report(w, AtmosphereHandlerService, cls, o) == w.(created := w.created + 1)
  {
    RunCreate(w, o, cls, [Abort]);
  }

  /** A property without a value stops the branch after the broadcaster and filters are set: no handler, cache or session change. */
  lemma HandlerBadProperty(w: World, cls: string, o: Oracle)
    requires o.CanCreate(cls) && (AtmosphereHandlerService, cls) in o.annotations
    requires !AllPairs(o.annotations[(AtmosphereHandlerService, cls)].properties)
    ensures var a := o.annotations[(AtmosphereHandlerService, cls)];
            Report(w, AtmosphereHandlerService, cls, o)
            == w.(created := w.created + 1,
                  fw := w.fw.(defaultBroadcaster := a.broadcaster, broadcastFilters := w.fw.broadcastFilters + a.broadcastFilters))
  {
    var a := o.annotations[(AtmosphereHandlerService, cls)];
    RunCreate(w, o, cls, HandlerSteps(a, Obj(cls, w.created), o));
    RunHandlerSteps(w.(created := w.created + 1), a, Obj(cls, w.created), o);
  }

  /** A config string without a value stops the branch after the init parameters before it: no handler, cache or session change. */
  lemma HandlerBadConfig(w: World, cls: string, o: Oracle)
    requires o.CanCreate(cls) && (AtmosphereHandlerService, cls) in o.annotations
    requires AllPairs(o.annotations[(AtmosphereHandlerService, cls)].properties)
    requires !AllPairs(o.annotations[(AtmosphereHandlerService, cls)].atmosphereConfig)
    ensures var a := o.annotations[(AtmosphereHandlerService, cls)];
            Report(w, AtmosphereHandlerService, cls, o)
            == w.(created := w.created + 1,
                  fw := w.fw.(defaultBroadcaster := a.broadcaster,
                              broadcastFilters := w.fw.broadcastFilters + a.broadcastFilters,
                              initParams := w.fw.initParams + ParsedPrefix(a.atmosphereConfig)))
    ensures |ParsedPrefix(o.annotations[(AtmosphereHandlerService, cls)].atmosphereConfig)|
            < |o.annotations[(AtmosphereHandlerService, cls)].atmosphereConfig|
  {
    var a := o.annotations[(AtmosphereHandlerService, cls)];
    RunCreate(w, o, cls, HandlerSteps(a, Obj(cls, w.created), o));
    RunHandlerSteps(w.(created := w.created + 1), a, Obj(cls, w.created), o);
    ParsedPrefixAll(a.atmosphereConfig);
  }

  /** When everything splits, the new instance is registered with its property calls and its chain, and the cache and session flag are set. */
  lemma HandlerRegistered(w: World, cls: string, o: Oracle)
    requires o.CanCreate(cls) && (AtmosphereHandlerService, cls) in o.annotations
    requires AllPairs(o.annotations[(AtmosphereHandlerService, cls)].properties)
    requires AllPairs(o.annotations[(AtmosphereHandlerService, cls)].atmosphereConfig)
    ensures var a := o.annotations[(AtmosphereHandlerService, cls)];
            var handler := Candidate(Obj(cls, w.created), PropertyCalls(ParsedPrefix(a.properties)));
            Report(w, AtmosphereHandlerService, cls, o)
            == w.(created := w.created + 1,
                  fw := w.fw.(defaultBroadcaster := a.broadcaster,
                              broadcastFilters := w.fw.broadcastFilters + a.broadcastFilters,
                              initParams := w.fw.initParams + ParsedPrefix(a.atmosphereConfig),
                              handlers := w.fw.handlers + [Registration(a.path, handler, Chain(a.interceptors, o))],
                              broadcasterCache := a.broadcasterCache,
                              sessionSupport := a.supportSession))
  {
    var a := o.annotations[(AtmosphereHandlerService, cls)];
    var h := Obj(cls, w.created);
    var w1 := w.(created := w.created + 1);
    RunCreate(w, o, cls, HandlerSteps(a, h, o));
    RunHandlerSteps(w1, a, h, o);
    var wi := WithInitParams(WithBroadcaster(w1, a.broadcaster, a.broadcastFilters), ParsedPrefix(a.atmosphereConfig));
    RunRegisterHandlerSteps(wi, a, h, o);
  }

  // The branches that only hand the class name to the framework.

  /** Each of these branches loads nothing and writes exactly one field: the cache, filter, broadcaster, protocol or processor class name. */
  lemma ClassNameBranches(w: World, cls: string, o: Oracle)
    ensures Report(w, BroadcasterCacheService, cls, o) == w.(fw := w.fw.(broadcasterCache := cls))
    ensures Report(w, BroadcasterFilterService, cls, o) == w.(fw := w.fw.(broadcastFilters := w.fw.broadcastFilters + [cls]))
    ensures Report(w, BroadcasterService, cls, o) == w.(fw := w.fw.(defaultBroadcaster := cls))
    ensures Report(w, WebSocketProtocolService, cls, o) == w.(fw := w.fw.(webSocketProtocol := cls))
    ensures Report(w, WebSocketProcessorService, cls, o) == w.(fw := w.fw.(webSocketProcessor := cls))
  {
    RunCall(w, SetBroadcasterCache(cls));
    RunCall(w, AddBroadcastFilter(cls));
    RunCall(w, SetDefaultBroadcaster(cls));
    RunCall(w, SetWebSocketProtocol(cls));
    RunCall(w, SetWebSocketProcessor(cls));
  }

  /** An annotation none of the seventeen tests matches changes nothing. */
  lemma UnlistedChangesNothing(w: World, name: string, cls: string, o: Oracle)
    ensures Report(w, Unlisted(name), cls, o) == w
  {
    assert Steps(Unlisted(name), cls, o, w.created) == [];
  }

  // The branches that instantiate the class and hand the instance over.

  /** The new instance is the next object; it is set or appended in the branch's one field, and nothing happens if it cannot be created. */
  lemma InstanceBranches(w: World, kind: Kind, cls: string, o: Oracle)
    requires HandsOverInstance(kind)
    ensures var obj := Obj(cls, w.created);
            var r := Report(w, kind, cls, o);
            if !o.CanCreate(cls) then r == w
            else r.created == w.created + 1
                 && r.fw == match kind
                            case BroadcasterCacheInspectorService => w.fw.(cacheInspectors := w.fw.cacheInspectors + [obj])
                            case AsyncSupportService => w.fw.(asyncSupport := Some(obj))
                            case AsyncSupportListenerService => w.fw.(asyncSupportListeners := w.fw.asyncSupportListeners + [obj])
                            case BroadcasterFactoryService => w.fw.(broadcasterFactory := Some(obj))
                            case BroadcasterListenerService => w.fw.(broadcastListeners := w.fw.broadcastListeners + [obj])
                            case EndpoinMapperService => w.fw.(endpointMapper := Some(obj))
  {
    HandoverSteps(kind, cls, o, w.created);
    RunCreateCall(w, o, cls, Handover(kind, Obj(cls, w.created)));
  }

  // The global interceptor branch (AtmosphereInterceptorService).

  /** The interceptor is appended only when it instantiates and configures; a failing `configure` still leaves the instance created. */
  lemma InterceptorBranch(w: World, cls: string, o: Oracle)
    ensures var r := Report(w, AtmosphereInterceptorService, cls, o);
            if !o.CanCreate(cls) then r == w
            else if cls !in o.configurable then r == w.(created := w.created + 1)
            else r == w.(created := w.created + 1, fw := w.fw.(interceptors := w.fw.interceptors + [Obj(cls, w.created)]))
  {
    var k := if cls in o.configurable then [Call(AddInterceptor(Obj(cls, w.created)))] else [Abort];
    RunCreate(w, o, cls, k);
    RunCall(w.(created := w.created + 1), AddInterceptor(Obj(cls, w.created)));
  }

  // The Meteor branch (MeteorService).

  /**
   * The servlet class is never instantiated here, only loaded. Without the
   * class or its annotation nothing changes; otherwise the broadcaster and
   * filters are set, the config pairs are added up to the first that does
   * not split, and only if all split is a servlet processor registered.
   */
  lemma MeteorBranch(w: World, cls: string, o: Oracle)
    ensures var r := Report(w, MeteorService, cls, o);
            if cls !in o.loadable || (MeteorService, cls) !in o.annotations then r == w
            else
              var m := o.annotations[(MeteorService, cls)];
              var wi := WithInitParams(WithBroadcaster(w, m.broadcaster, m.broadcastFilters), ParsedPrefix(m.atmosphereConfig));
              if !AllPairs(m.atmosphereConfig) then r == wi
              else r == wi.(fw := wi.fw.(handlers := wi.fw.handlers + [Registration(m.path, ServletProcessor(cls), Chain(m.interceptors, o))]))
  {
    if cls !in o.loadable || (MeteorService, cls) !in o.annotations {
      RunAbort(w, []);
      assert [Abort] + [] == [Abort];
    } else {
      var m := o.annotations[(MeteorService, cls)];
      var register := AddAtmosphereHandler(Registration(m.path, ServletProcessor(cls), Chain(m.interceptors, o)));
      BroadcasterStepsRun(w, m.broadcaster, m.broadcastFilters, ConfigSteps(m.atmosphereConfig) + [Call(register)]);
      var wb := WithBroadcaster(w, m.broadcaster, m.broadcastFilters);
      ConfigStepsRun(wb, m.atmosphereConfig, [Call(register)]);
      RunCall(WithInitParams(wb, ParsedPrefix(m.atmosphereConfig)), register);
    }
  }

  // The websocket handler branch (WebSocketHandlerService).

  /** `initWebSocket()` comes first and stays done; if the class does not load, lacks the annotation or does not instantiate, nothing else changes. */
  lemma WebSocketHandlerFails(w: World, cls: string, o: Oracle)
    requires cls !in o.loadable || (WebSocketHandlerService, cls) !in o.annotations || cls !in o.instantiable
    ensures Report(w, WebSocketHandlerService, cls, o) == w.(fw := w.fw.(webSocketInitialised := true))
  {
    RunCons(w, Call(InitWebSocket), [Abort]);
    RunAbort(Apply(w, Call(InitWebSocket)), []);
    assert [Abort] + [] == [Abort];
  }

  /** Otherwise the new instance is registered at the annotation's path and the broadcaster, filters and cache are set. */
  lemma WebSocketHandlerRegistered(w: World, cls: string, o: Oracle)
    requires cls in o.loadable && (WebSocketHandlerService, cls) in o.annotations && cls in o.instantiable
    ensures var m := o.annotations[(WebSocketHandlerService, cls)];
            Report(w, WebSocketHandlerService, cls, o)
            == w.(created := w.created + 1,
                  fw := w.fw.(webSocketInitialised := true,
                              webSocketHandlers := w.fw.webSocketHandlers + [(m.path, Obj(cls, w.created))],
                              defaultBroadcaster := m.broadcaster,
                              broadcastFilters := w.fw.broadcastFilters + m.broadcastFilters,
                              broadcasterCache := m.broadcasterCache))
  {
    var m := o.annotations[(WebSocketHandlerService, cls)];
    var h := Obj(cls, w.created);
    var rest := [New] + WebSocketRegistrationSteps(m, h);
    RunCons(w, Call(InitWebSocket), rest);
    var w1 := Apply(w, Call(InitWebSocket));
    RunCons(w1, New, WebSocketRegistrationSteps(m, h));
    var w2 := Apply(w1, New);
    var tail := [Call(SetBroadcasterCache(m.broadcasterCache))];
    RunCons(w2, Call(RegisterWebSocketHandler(m.path, h)), BroadcasterSteps(m.broadcaster, m.broadcastFilters) + tail);
    var w3 := Apply(w2, Call(RegisterWebSocketHandler(m.path, h)));
    BroadcasterStepsRun(w3, m.broadcaster, m.broadcastFilters, tail);
    RunCall(WithBroadcaster(w3, m.broadcaster, m.broadcastFilters), SetBroadcasterCache(m.broadcasterCache));
  }

  // The managed service branch (ManagedService).

  /**
   * The managed service's chain: the four fixed interceptors that load, in
   * their listed order, followed by exactly one listener-attaching
   * interceptor; so it holds between one and five entries and ends with the
   * listener-attaching one.
   */
  lemma ManagedChainShape(o: Oracle, listeners: seq<string>)
    ensures var chain := Chain(ManagedInterceptors, o) + [ListenerAttacher(listeners)];
            1 <= |chain| <= 5
            && chain[|chain| - 1] == ListenerAttacher(listeners)
            && IsSubsequence(chain[..|chain| - 1], Declared(ManagedInterceptors))
  {
    var chain := Chain(ManagedInterceptors, o) + [ListenerAttacher(listeners)];
    assert chain[..|chain| - 1] == Chain(ManagedInterceptors, o);
    ChainIsSubsequence(ManagedInterceptors, o);
  }

  /** A managed service that instantiates and carries its annotation is registered with that chain, and the cache becomes the header cache. */
  lemma ManagedRegistered(w: World, cls: string, o: Oracle)
    requires o.CanCreate(cls) && (ManagedService, cls) in o.annotations
    ensures var a := o.annotations[(ManagedService, cls)];
            var chain := Chain(ManagedInterceptors, o) + [ListenerAttacher(a.listeners)];
            Report(w, ManagedService, cls, o)
            == w.(created := w.created + 1,
                  fw := w.fw.(handlers := w.fw.handlers + [Registration(a.path, Candidate(Obj(cls, w.created), []), chain)],
                              broadcasterCache := HeaderBroadcasterCache))
  {
    var a := o.annotations[(ManagedService, cls)];
    var h := Obj(cls, w.created);
    var chain := Chain(ManagedInterceptors, o) + [ListenerAttacher(a.listeners)];
    var register := Call(AddAtmosphereHandler(Registration(a.path, Candidate(h, []), chain)));
    var cache := SetBroadcasterCache(HeaderBroadcasterCache);
    RunCreate(w, o, cls, ManagedRegistrationSteps(a, h, o));
    var w1 := w.(created := w.created + 1);
    RunCons(w1, register, [Call(cache)]);
    RunCall(Apply(w1, register), cache);
  }

  /** A managed service that cannot be created, or lacks its annotation, registers nothing and leaves the cache alone. */
  lemma ManagedNotRegistered(w: World, cls: string, o: Oracle)
    requires !o.CanCreate(cls) || (ManagedService, cls) !in o.annotations
    ensures Report(w, ManagedService, cls, o) == if o.CanCreate(cls) then w.(created := w.created + 1) else w
  {
    RunCreate(w, o, cls, if (ManagedService, cls) !in o.annotations then [Abort]
                         else ManagedRegistrationSteps(o.annotations[(ManagedService, cls)], Obj(cls, w.created), o));
  }

  // The managed handler branch (ManagedAtmosphereHandlerService).

  /**
   * Two instances are created; the path comes from the annotation, and the
   * one wrapped and registered, with no interceptors, is the SECOND.
   */
  lemma ManagedHandlerRegistered(w: World, cls: string, o: Oracle)
    requires o.CanCreate(cls) && (ManagedAtmosphereHandlerService, cls) in o.annotations
    ensures var a := o.annotations[(ManagedAtmosphereHandlerService, cls)];
            Report(w, ManagedAtmosphereHandlerService, cls, o)
            == w.(created := w.created + 2,
                  fw := w.fw.(handlers := w.fw.handlers + [Registration(a.path, ManagedWrapper(Obj(cls, w.created + 1)), [])]))
    ensures Obj(cls, w.created + 1) != Obj(cls, w.created)
  {
    var a := o.annotations[(ManagedAtmosphereHandlerService, cls)];
    var e := AddAtmosphereHandler(Registration(a.path, ManagedWrapper(Obj(cls, w.created + 1)), []));
    RunCreate(w, o, cls, [New] + [Call(e)]);
    var w1 := w.(created := w.created + 1);
    RunCons(w1, New, [Call(e)]);
    RunCall(Apply(w1, New), e);
  }

  /** A managed handler class whose first `newInstance()` throws changes nothing. */
  lemma ManagedHandlerNotCreated(w: World, cls: string, o: Oracle)
    requires !o.CanCreate(cls)
    ensures Report(w, ManagedAtmosphereHandlerService, cls, o) == w
  {
    var key := (ManagedAtmosphereHandlerService, cls);
    RunCreate(w, o, cls, [New] + if key !in o.annotations then [Abort]
      else [Call(AddAtmosphereHandler(Registration(o.annotations[key].path, ManagedWrapper(Obj(cls, w.created + 1)), [])))]);
  }

  /** Without the annotation both instances are still created, and nothing is registered. */
  lemma ManagedHandlerWithoutAnnotation(w: World, cls: string, o: Oracle)
    requires o.CanCreate(cls) && (ManagedAtmosphereHandlerService, cls) !in o.annotations
    ensures Report(w, ManagedAtmosphereHandlerService, cls, o) == w.(created := w.created + 2)
  {
    RunCreate(w, o, cls, [New] + [Abort]);
    var w1 := w.(created := w.created + 1);
    RunCons(w1, New, [Abort]);
  }

  // Over a scan: the class-name settings keep the last write.

  /** The four class-name settings that reports overwrite rather than append to. */
  datatype NameSetting = DefaultBroadcasterName | BroadcasterCacheName | WebSocketProtocolName | WebSocketProcessorName

  function NameOf(c: Config, f: NameSetting): string
  {
    match f
    case DefaultBroadcasterName => c.defaultBroadcaster
    case BroadcasterCacheName => c.broadcasterCache
    case WebSocketProtocolName => c.webSocketProtocol
    case WebSocketProcessorName => c.webSocketProcessor
  }

  /** The framework call overwrites the setting. */
  predicate Overwrites(e: Effect, f: NameSetting)
  {
    match f
    case DefaultBroadcasterName => e.SetDefaultBroadcaster?
    case BroadcasterCacheName => e.SetBroadcasterCache?
    case WebSocketProtocolName => e.SetWebSocketProtocol?
    case WebSocketProcessorName => e.SetWebSocketProcessor?
  }

  /** The annotation kinds whose branch contains a call that overwrites the setting. */
  predicate MayWrite(kind: Kind, f: NameSetting)
  {
    match f
    case DefaultBroadcasterName =>
      kind.BroadcasterService? || kind.AtmosphereHandlerService? || kind.MeteorService? || kind.WebSocketHandlerService?
    case BroadcasterCacheName =>
      kind.BroadcasterCacheService? || kind.AtmosphereHandlerService? || kind.WebSocketHandlerService? || kind.ManagedService?
    case WebSocketProtocolName => kind.WebSocketProtocolService?
    case WebSocketProcessorName => kind.WebSocketProcessorService?
  }

  /** The kind whose branch sets the setting to the reported class name. */
  function SetterKind(f: NameSetting): Kind
  {
    match f
    case DefaultBroadcasterName => BroadcasterService
    case BroadcasterCacheName => BroadcasterCacheService
    case WebSocketProtocolName => WebSocketProtocolService
    case WebSocketProcessorName => WebSocketProcessorService
  }

  /** No call in the steps overwrites the setting. */
  predicate Leaves(steps: seq<Step>, f: NameSetting)
    decreases |steps|
  {
    steps == [] || (!(steps[0].Call? && Overwrites(steps[0].effect, f)) && Leaves(steps[1..], f))
  }

  lemma {:induction false} LeavesAppend(a: seq<Step>, b: seq<Step>, f: NameSetting)
    requires Leaves(a, f) && Leaves(b, f)
    ensures Leaves(a + b, f)
    decreases |a|
  {
    if a == [] {
      assert a + b == b;
    } else {
      assert (a + b)[0] == a[0] && (a + b)[1..] == a[1..] + b;
      LeavesAppend(a[1..], b, f);
    }
  }

  /** Running steps that leave the setting alone keeps its value. */
  lemma {:induction false} RunLeaves(w: World, steps: seq<Step>, f: NameSetting)
    requires Leaves(steps, f)
    ensures NameOf(Run(w, steps).fw, f) == NameOf(w.fw, f)
    decreases |steps|
  {
    if steps != [] && !steps[0].Abort? {
      RunLeaves(Apply(w, steps[0]), steps[1..], f);
      if steps[0].Call? {
        UpdateLeaves(w.fw, steps[0].effect, f);
      }
    }
  }

  lemma UpdateLeaves(c: Config, e: Effect, f: NameSetting)
    requires !Overwrites(e, f)
    ensures NameOf(Update(c, e), f) == NameOf(c, f)
  {
  }

  lemma {:induction false} FilterStepsLeave(names: seq<string>, f: NameSetting)
    ensures Leaves(FilterSteps(names), f)
    decreases |names|
  {
    if names != [] {
      FilterStepsLeave(names[1..], f);
      assert FilterSteps(names)[1..] == FilterSteps(names[1..]);
    }
  }

  lemma {:induction false} ConfigStepsLeave(ss: seq<string>, f: NameSetting)
    ensures Leaves(ConfigSteps(ss), f)
    decreases |ss|
  {
    if ss != [] {
      match KeyValue(ss[0])
      case None =>
        assert ConfigSteps(ss) == [Abort];
      case Some(kv) =>
        ConfigStepsHead(ss, kv);
        ConfigStepsLeave(ss[1..], f);
        assert ConfigSteps(ss)[1..] == ConfigSteps(ss[1..]);
    }
  }

  /** The broadcaster part overwrites only the default broadcaster. */
  lemma BroadcasterStepsLeave(b: string, filters: seq<string>, f: NameSetting)
    requires f != DefaultBroadcasterName
    ensures Leaves(BroadcasterSteps(b, filters), f)
  {
    FilterStepsLeave(filters, f);
    assert BroadcasterSteps(b, filters)[1..] == FilterSteps(filters);
  }

  lemma LeavesCons(st: Step, rest: seq<Step>, f: NameSetting)
    requires !(st.Call? && Overwrites(st.effect, f)) && Leaves(rest, f)
    ensures Leaves([st] + rest, f)
  {
    assert ([st] + rest)[1..] == rest;
  }

  lemma LeavesCall(e: Effect, f: NameSetting)
    requires !Overwrites(e, f)
    ensures Leaves([Call(e)], f)
  {
    assert [Call(e)][1..] == [];
  }

  lemma CreateLeaves(o: Oracle, cls: string, k: seq<Step>, f: NameSetting)
    requires Leaves(k, f)
    ensures Leaves(Create(o, cls, k), f)
  {
    if o.CanCreate(cls) {
      assert Create(o, cls, k)[1..] == k;
    }
  }

  lemma HandlerStepsLeave(cls: string, o: Oracle, next: nat, f: NameSetting)
    requires !MayWrite(AtmosphereHandlerService, f)
    ensures Leaves(AtmosphereHandlerSteps(cls, o, next), f)
  {
    var key := (AtmosphereHandlerService, cls);
    if key in o.annotations {
      var a := o.annotations[key];
      var h := Obj(cls, next);
      BroadcasterStepsLeave(a.broadcaster, a.broadcastFilters, f);
      ConfigStepsLeave(a.atmosphereConfig, f);
      var tail := RegisterHandlerSteps(a, h, o);
      var register := Call(AddAtmosphereHandler(Registration(a.path, Candidate(h, PropertyCalls(ParsedPrefix(a.properties))), Chain(a.interceptors, o))));
      LeavesCall(SetSessionSupport(a.supportSession), f);
      LeavesCons(Call(SetBroadcasterCache(a.broadcasterCache)), [Call(SetSessionSupport(a.supportSession))], f);
      LeavesCons(register, [Call(SetBroadcasterCache(a.broadcasterCache))] + [Call(SetSessionSupport(a.supportSession))], f);
      assert tail == [register] + ([Call(SetBroadcasterCache(a.broadcasterCache))] + [Call(SetSessionSupport(a.supportSession))]);
      LeavesAppend(ConfigSteps(a.atmosphereConfig), tail, f);
      LeavesAppend(Guard(AllPairs(a.properties)), ConfigSteps(a.atmosphereConfig) + tail, f);
      LeavesAppend(BroadcasterSteps(a.broadcaster, a.broadcastFilters), Guard(AllPairs(a.properties)) + (ConfigSteps(a.atmosphereConfig) + tail), f);
      CreateLeaves(o, cls, HandlerSteps(a, h, o), f);
    } else {
      CreateLeaves(o, cls, [Abort], f);
    }
  }

  lemma MeteorStepsLeave(cls: string, o: Oracle, f: NameSetting)
    requires !MayWrite(MeteorService, f)
    ensures Leaves(MeteorSteps(cls, o), f)
  {
    if cls in o.loadable && (MeteorService, cls) in o.annotations {
      var m := o.annotations[(MeteorService, cls)];
      var tail := [Call(AddAtmosphereHandler(Registration(m.path, ServletProcessor(cls), Chain(m.interceptors, o))))];
      BroadcasterStepsLeave(m.broadcaster, m.broadcastFilters, f);
      ConfigStepsLeave(m.atmosphereConfig, f);
      LeavesCall(AddAtmosphereHandler(Registration(m.path, ServletProcessor(cls), Chain(m.interceptors, o))), f);
      LeavesAppend(ConfigSteps(m.atmosphereConfig), tail, f);
      LeavesAppend(BroadcasterSteps(m.broadcaster, m.broadcastFilters), ConfigSteps(m.atmosphereConfig) + tail, f);
    }
  }

  lemma WebSocketHandlerStepsLeave(cls: string, o: Oracle, next: nat, f: NameSetting)
    requires !MayWrite(WebSocketHandlerService, f)
    ensures Leaves(WebSocketHandlerSteps(cls, o, next), f)
  {
    var steps := WebSocketHandlerSteps(cls, o, next);
    var key := (WebSocketHandlerService, cls);
    if cls in o.loadable && key in o.annotations && cls in o.instantiable {
      var m := o.annotations[key];
      var tail := [Call(SetBroadcasterCache(m.broadcasterCache))];
      BroadcasterStepsLeave(m.broadcaster, m.broadcastFilters, f);
      LeavesAppend(BroadcasterSteps(m.broadcaster, m.broadcastFilters), tail, f);
      var reg := WebSocketRegistrationSteps(m, Obj(cls, next));
      assert reg[1..] == BroadcasterSteps(m.broadcaster, m.broadcastFilters) + tail;
      assert steps[1..] == [New] + reg && steps[1..][1..] == reg;
    } else {
      assert steps[1..] == [Abort];
    }
  }

  lemma ManagedStepsLeave(cls: string, o: Oracle, next: nat, f: NameSetting)
    requires !MayWrite(ManagedService, f)
    ensures Leaves(ManagedSteps(cls, o, next), f)
  {
    var key := (ManagedService, cls);
    var k := if key !in o.annotations then [Abort] else ManagedRegistrationSteps(o.annotations[key], Obj(cls, next), o);
    assert Leaves(k, f) by {
      if key in o.annotations {
        assert k[1..][1..] == [];
      }
    }
    CreateLeaves(o, cls, k, f);
  }

  /** A branch that cannot overwrite a setting leaves it as it was, whatever the oracle says. */
  lemma StepsLeave(kind: Kind, cls: string, o: Oracle, next: nat, f: NameSetting)
    requires !MayWrite(kind, f)
    ensures Leaves(Steps(kind, cls, o, next), f)
  {
    match kind
    case AtmosphereHandlerService => HandlerStepsLeave(cls, o, next, f);
    case MeteorService => MeteorStepsLeave(cls, o, f);
    case WebSocketHandlerService => WebSocketHandlerStepsLeave(cls, o, next, f);
    case ManagedService => ManagedStepsLeave(cls, o, next, f);
    case AtmosphereInterceptorService =>
      var k := if cls in o.configurable then [Call(AddInterceptor(Obj(cls, next)))] else [Abort];
      CreateLeaves(o, cls, k, f);
    case ManagedAtmosphereHandlerService =>
      var key := (ManagedAtmosphereHandlerService, cls);
      var k := [New] + if key !in o.annotations then [Abort]
        else [Call(AddAtmosphereHandler(Registration(o.annotations[key].path, ManagedWrapper(Obj(cls, next + 1)), [])))];
      assert k[1..][1..] == [];
      CreateLeaves(o, cls, k, f);
    case BroadcasterCacheService => LeavesCall(SetBroadcasterCache(cls), f);
    case BroadcasterFilterService => LeavesCall(AddBroadcastFilter(cls), f);
    case BroadcasterService => LeavesCall(SetDefaultBroadcaster(cls), f);
    case WebSocketProtocolService => LeavesCall(SetWebSocketProtocol(cls), f);
    case WebSocketProcessorService => LeavesCall(SetWebSocketProcessor(cls), f);
    case BroadcasterCacheInspectorService => InstanceStepsLeave(kind, cls, o, next, f);
    case AsyncSupportService => InstanceStepsLeave(kind, cls, o, next, f);
    case AsyncSupportListenerService => InstanceStepsLeave(kind, cls, o, next, f);
    case BroadcasterFactoryService => InstanceStepsLeave(kind, cls, o, next, f);
    case BroadcasterListenerService => InstanceStepsLeave(kind, cls, o, next, f);
    case EndpoinMapperService => InstanceStepsLeave(kind, cls, o, next, f);
    case Unlisted(_) =>
  }

  lemma InstanceStepsLeave(kind: Kind, cls: string, o: Oracle, next: nat, f: NameSetting)
    requires HandsOverInstance(kind)
    ensures Leaves(Steps(kind, cls, o, next), f)
  {
    HandoverSteps(kind, cls, o, next);
    LeavesCall(Handover(kind, Obj(cls, next)), f);
    CreateLeaves(o, cls, [Call(Handover(kind, Obj(cls, next)))], f);
  }

  /** Reports of kinds that cannot overwrite a setting keep it, whatever classes they name. */
  lemma {:induction false} ScanAllLeaves(w: World, reports: seq<(Kind, string)>, o: Oracle, f: NameSetting)
    requires forall i :: 0 <= i < |reports| ==> !MayWrite(reports[i].0, f)
    ensures NameOf(ScanAll(w, reports, o).fw, f) == NameOf(w.fw, f)
    decreases |reports|
  {
    if reports != [] {
      StepsLeave(reports[0].0, reports[0].1, o, w.created, f);
      RunLeaves(w, Steps(reports[0].0, reports[0].1, o, w.created), f);
      ScanAllLeaves(Report(w, reports[0].0, reports[0].1, o), reports[1..], o, f);
    }
  }

  /**
   * Last write wins: after a report of the setting's own kind, followed only
   * by reports that cannot overwrite the setting, the setting holds that
   * report's class name.
   */
  lemma LastWriteWins(w: World, reports: seq<(Kind, string)>, o: Oracle, f: NameSetting, j: nat)
    requires j < |reports| && reports[j].0 == SetterKind(f)
    requires forall i :: j < i < |reports| ==> !MayWrite(reports[i].0, f)
    ensures NameOf(ScanAll(w, reports, o).fw, f) == reports[j].1
  {
    var before, after := reports[..j], reports[j + 1..];
    assert reports == before + ([reports[j]] + after);
    ScanAllAppend(w, before, [reports[j]] + after, o);
    var w1 := ScanAll(w, before, o);
    assert ([reports[j]] + after)[1..] == after;
    ClassNameBranches(w1, reports[j].1, o);
    var w2 := Report(w1, reports[j].0, reports[j].1, o);
    assert NameOf(w2.fw, f) == reports[j].1;
    forall i | 0 <= i < |after| ensures !MayWrite(after[i].0, f) {
      assert after[i] == reports[j + 1 + i];
    }
    ScanAllLeaves(w2, after, o, f);
  }

  // Last write wins, for every branch that can be the last writer.

  /**
   * The class name a report of this kind leaves in the setting, or `None`
   * when the report leaves the setting as it was. The handler sets the
   * default broadcaster once it has its annotation (:116) and the cache only
   * when every string splits (:145); Meteor (:167) and the websocket branch
   * (:205, :210) set theirs once the class loads and has its annotation; the
   * managed service sets the header cache (:308).
   */
  function NameWritten(kind: Kind, cls: string, o: Oracle, f: NameSetting): (r: Option<string>)
    ensures r.Some? ==> MayWrite(kind, f)
    ensures kind == SetterKind(f) ==> r == Some(cls)
  {
    match kind
    case AtmosphereHandlerService =>
      var key := (AtmosphereHandlerService, cls);
      if !o.CanCreate(cls) || key !in o.annotations then None
      else if f.DefaultBroadcasterName? then Some(o.annotations[key].broadcaster)
      else if f.BroadcasterCacheName? && AllPairs(o.annotations[key].properties)
              && AllPairs(o.annotations[key].atmosphereConfig) then Some(o.annotations[key].broadcasterCache)
      else None
    case MeteorService =>
      var key := (MeteorService, cls);
      if cls !in o.loadable || key !in o.annotations || !f.DefaultBroadcasterName? then None
      else Some(o.annotations[key].broadcaster)
    case WebSocketHandlerService =>
      var key := (WebSocketHandlerService, cls);
      if cls !in o.loadable || key !in o.annotations || cls !in o.instantiable then None
      else if f.DefaultBroadcasterName? then Some(o.annotations[key].broadcaster)
      else if f.BroadcasterCacheName? then Some(o.annotations[key].broadcasterCache)
      else None
    case ManagedService =>
      if o.CanCreate(cls) && (ManagedService, cls) in o.annotations && f.BroadcasterCacheName?
      then Some(HeaderBroadcasterCache) else None
    case _ => if kind == SetterKind(f) then Some(cls) else None
  }

  /** The setting after one report, given what the report writes into it. */
  function NameAfter(before: string, written: Option<string>): string
  {
    if written.Some? then written.value else before
  }

  lemma HandlerName(w: World, cls: string, o: Oracle, f: NameSetting)
    ensures NameOf(Report(w, AtmosphereHandlerService, cls, o).fw, f)
         == NameAfter(NameOf(w.fw, f), NameWritten(AtmosphereHandlerService, cls, o, f))
  {
    var key := (AtmosphereHandlerService, cls);
    if !o.CanCreate(cls) {
      HandlerNotCreated(w, cls, o);
    } else if key !in o.annotations {
      HandlerWithoutAnnotation(w, cls, o);
    } else if !AllPairs(o.annotations[key].properties) {
      HandlerBadProperty(w, cls, o);
    } else if !AllPairs(o.annotations[key].atmosphereConfig) {
      HandlerBadConfig(w, cls, o);
    } else {
      HandlerRegistered(w, cls, o);
    }
  }

  lemma MeteorName(w: World, cls: string, o: Oracle, f: NameSetting)
    ensures NameOf(Report(w, MeteorService, cls, o).fw, f)
         == NameAfter(NameOf(w.fw, f), NameWritten(MeteorService, cls, o, f))
  {
    MeteorBranch(w, cls, o);
  }

  lemma WebSocketHandlerName(w: World, cls: string, o: Oracle, f: NameSetting)
    ensures NameOf(Report(w, WebSocketHandlerService, cls, o).fw, f)
         == NameAfter(NameOf(w.fw, f), NameWritten(WebSocketHandlerService, cls, o, f))
  {
    if cls !in o.loadable || (WebSocketHandlerService, cls) !in o.annotations || cls !in o.instantiable {
      WebSocketHandlerFails(w, cls, o);
    } else {
      WebSocketHandlerRegistered(w, cls, o);
    }
  }

  lemma ManagedName(w: World, cls: string, o: Oracle, f: NameSetting)
    ensures NameOf(Report(w, ManagedService, cls, o).fw, f)
         == NameAfter(NameOf(w.fw, f), NameWritten(ManagedService, cls, o, f))
  {
    if o.CanCreate(cls) && (ManagedService, cls) in o.annotations {
      ManagedRegistered(w, cls, o);
    } else {
      ManagedNotRegistered(w, cls, o);
    }
  }

  /** One report leaves the setting at the name it writes, or as it was when it writes none. */
  lemma ReportName(w: World, kind: Kind, cls: string, o: Oracle, f: NameSetting)
    ensures NameOf(Report(w, kind, cls, o).fw, f) == NameAfter(NameOf(w.fw, f), NameWritten(kind, cls, o, f))
  {
    match kind
    case AtmosphereHandlerService => HandlerName(w, cls, o, f);
    case MeteorService => MeteorName(w, cls, o, f);
    case WebSocketHandlerService => WebSocketHandlerName(w, cls, o, f);
    case ManagedService => ManagedName(w, cls, o, f);
    case _ =>
      if kind == SetterKind(f) {
        ClassNameBranches(w, cls, o);
      } else {
        StepsLeave(kind, cls, o, w.created, f);
        RunLeaves(w, Steps(kind, cls, o, w.created), f);
      }
  }

  /** The setting after a sequence of reports: each report in turn overwrites it with the name it writes, if any. */
  function NameAfterAll(before: string, reports: seq<(Kind, string)>, o: Oracle, f: NameSetting): string
    decreases |reports|
  {
    if reports == [] then before
    else NameAfterAll(NameAfter(before, NameWritten(reports[0].0, reports[0].1, o, f)), reports[1..], o, f)
  }

  /** Over a whole scan, a class-name setting holds the name the last report that writes it wrote. */
  lemma {:induction false} ScanAllName(w: World, reports: seq<(Kind, string)>, o: Oracle, f: NameSetting)
    ensures NameOf(ScanAll(w, reports, o).fw, f) == NameAfterAll(NameOf(w.fw, f), reports, o, f)
    decreases |reports|
  {
    if reports != [] {
      ReportName(w, reports[0].0, reports[0].1, o, f);
      ScanAllName(Report(w, reports[0].0, reports[0].1, o), reports[1..], o, f);
    }
  }

  /**
   * Last write wins, whatever the last writer's kind: when no report after
   * the j-th can overwrite the setting, the scan ends with what the j-th
   * report left there.
   */
  lemma LastWriterDecides(w: World, reports: seq<(Kind, string)>, o: Oracle, f: NameSetting, j: nat)
    requires j < |reports|
    requires forall i :: j < i < |reports| ==> !MayWrite(reports[i].0, f)
    ensures NameOf(ScanAll(w, reports, o).fw, f)
         == NameAfter(NameOf(ScanAll(w, reports[..j], o).fw, f), NameWritten(reports[j].0, reports[j].1, o, f))
  {
    var before, after := reports[..j], reports[j + 1..];
    assert reports == before + ([reports[j]] + after);
    ScanAllAppend(w, before, [reports[j]] + after, o);
    var w1 := ScanAll(w, before, o);
    assert ([reports[j]] + after)[1..] == after;
    ReportName(w1, reports[j].0, reports[j].1, o, f);
    forall i | 0 <= i < |after| ensures !MayWrite(after[i].0, f) {
      assert after[i] == reports[j + 1 + i];
    }
    ScanAllLeaves(Report(w1, reports[j].0, reports[j].1, o), after, o, f);
  }

  /** A handler report whose class does not instantiate does not undo an earlier broadcaster report. */
  lemma FailedHandlerKeepsBroadcaster(w: World, o: Oracle, broadcaster: string, handler: string)
    requires !o.CanCreate(handler)
    ensures NameOf(ScanAll(w, [(BroadcasterService, broadcaster), (AtmosphereHandlerService, handler)], o).fw, DefaultBroadcasterName)
         == broadcaster
  {
    var reports := [(BroadcasterService, broadcaster), (AtmosphereHandlerService, handler)];
    LastWriterDecides(w, reports, o, DefaultBroadcasterName, 1);
    assert reports[..1] == [(BroadcasterService, broadcaster)];
    LastWriteWins(w, reports[..1], o, DefaultBroadcasterName, 0);
  }
}
