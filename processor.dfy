/**
 * The annotation processor: `reportTypeAnnotation` as an imperative method on
 * a processor holding the shared framework object. Each branch of the source's
 * if/else chain is one method whose statements follow the branch in order; a
 * reflective call or index that throws ends the method (the branch's `try`
 * swallows the `Throwable`) and leaves whatever was already done in place.
 * Every branch is proved to leave the state that running its step list gives.
 */
module Processor {
  import opened NameValue
  import opened Reflection
  import opened Chains
  import opened Configuration
  import opened Wiring
  import opened Sequences

  /**
   * The `properties` loop: each string is split at "=" and `setProperty`,
   * then `addProperty`, are called with piece 0 and piece 1; a string with
   * fewer than two pieces throws, and `ok` reports whether the loop completed.
   */
  method ApplyProperties(properties: seq<string>) returns (calls: seq<PropertyCall>, ok: bool)
    ensures ok == AllPairs(properties)
    ensures calls == PropertyCalls(ParsedPrefix(properties))
  {
    ghost var parsed := ParsedPrefix(properties);
    calls := [];
    var i := 0;
    while i < |properties|
      invariant 0 <= i <= |parsed|
      invariant calls == PropertyCalls(parsed[..i])
    {
      ParsedPrefixAt(properties, i);
      var nv := Split(properties[i]);
      if |nv| < 2 {
        ok := false;
        assert parsed[..i] == parsed;
        ParsedPrefixAll(properties);
        return;
      }
      var step := [SetProperty(nv[0], nv[1]), AddProperty(nv[0], nv[1])];
      assert parsed[..i + 1] == parsed[..i] + [(nv[0], nv[1])];
      PropertyCallsAppend(parsed[..i], [(nv[0], nv[1])]);
      calls := calls + step;
      i := i + 1;
    }
    assert parsed[..i] == parsed;
    ParsedPrefixAll(properties);
    ok := true;
  }

  class AnnotationProcessor {
    const framework: Framework
    var created: nat

    /** `configure(framework)`: the processor is bound to the framework it wires into. */
    constructor (framework: Framework)
      ensures this.framework == framework && created == 0
    {
      this.framework := framework;
      created := 0;
    }

    function State(): World
      reads this, framework
    {
      World(framework.Snapshot(), created)
    }

    /** One `reportTypeAnnotation(annotation, className)` call: the branch the annotation selects. */
    method ReportTypeAnnotation(kind: Kind, className: string, o: Oracle)
      modifies this, framework
      ensures State() == Report(old(State()), kind, className, o)
    {
      match kind
      case AtmosphereHandlerService => ReportAtmosphereHandler(className, o);
      case MeteorService => ReportMeteor(className, o);
      case WebSocketHandlerService => ReportWebSocketHandler(className, o);
      case AtmosphereInterceptorService => ReportInterceptor(className, o);
      case ManagedService => ReportManaged(className, o);
      case ManagedAtmosphereHandlerService => ReportManagedHandler(className, o);
      case BroadcasterCacheService => ReportClassName(kind, className, o);
      case BroadcasterFilterService => ReportClassName(kind, className, o);
      case BroadcasterService => ReportClassName(kind, className, o);
      case WebSocketProtocolService => ReportClassName(kind, className, o);
      case WebSocketProcessorService => ReportClassName(kind, className, o);
      case Unlisted(_) => ReportClassName(kind, className, o);
      case BroadcasterCacheInspectorService => ReportInstance(kind, className, o);
      case AsyncSupportService => ReportInstance(kind, className, o);
      case AsyncSupportListenerService => ReportInstance(kind, className, o);
      case BroadcasterFactoryService => ReportInstance(kind, className, o);
      case BroadcasterListenerService => ReportInstance(kind, className, o);
      case EndpoinMapperService => ReportInstance(kind, className, o);
    }

    /** The branches that hand the class name itself to the framework, and an annotation no branch tests. */
    method ReportClassName(kind: Kind, className: string, o: Oracle)
      requires kind.BroadcasterCacheService? || kind.BroadcasterFilterService? || kind.BroadcasterService?
            || kind.WebSocketProtocolService? || kind.WebSocketProcessorService? || kind.Unlisted?
      modifies framework
      ensures State() == Report(old(State()), kind, className, o)
    {
      match kind
      case BroadcasterCacheService =>
        RunCall(State(), SetBroadcasterCache(className));
        framework.SetBroadcasterCacheClassName(className);
      case BroadcasterFilterService =>
        RunCall(State(), AddBroadcastFilter(className));
        framework.AddBroadcasterFilter(className);
      case BroadcasterService =>
        RunCall(State(), SetDefaultBroadcaster(className));
        framework.SetDefaultBroadcasterClassName(className);
      case WebSocketProtocolService =>
        RunCall(State(), SetWebSocketProtocol(className));
        framework.SetWebSocketProtocolClassName(className);
      case WebSocketProcessorService =>
        RunCall(State(), SetWebSocketProcessor(className));
        framework.SetWebsocketProcessorClassName(className);
      case Unlisted(_) =>
        assert Steps(kind, className, o, created) == [];
    }

    /** The branches that instantiate the reported class and hand the instance to the framework. */
    method ReportInstance(kind: Kind, className: string, o: Oracle)
      requires HandsOverInstance(kind)
      modifies this, framework
      ensures State() == Report(old(State()), kind, className, o)
    {
      HandoverSteps(kind, className, o, created);
      RunCreateCall(State(), o, className, Handover(kind, Obj(className, created)));
      if !o.CanCreate(className) {
        // `loadClass(className).newInstance()` throws
        return;
      }
      var instance := NewCandidate(className);
      HandOver(kind, instance);
    }

    /** The framework call of such a branch. */
    method HandOver(kind: Kind, instance: Obj)
      requires HandsOverInstance(kind)
      modifies framework
      ensures framework.Snapshot() == Update(old(framework.Snapshot()), Handover(kind, instance))
    {
      match kind
      case BroadcasterCacheInspectorService => framework.AddBroadcasterCacheInspector(instance);
      case AsyncSupportService => framework.SetAsyncSupportTo(instance);
      case AsyncSupportListenerService => framework.AsyncSupportListener(instance);
      case BroadcasterFactoryService => framework.SetBroadcasterFactoryTo(instance);
      case BroadcasterListenerService => framework.AddBroadcasterListener(instance);
      case EndpoinMapperService => framework.EndPointMapper(instance);
    }

    /** The detector's callbacks, one per match, in the order it delivers them. */
    method Scan(reports: seq<(Kind, string)>, o: Oracle)
      modifies this, framework
      ensures State() == ScanAll(old(State()), reports, o)
    {
      var i := 0;
      while i < |reports|
        invariant 0 <= i <= |reports|
        invariant ScanAll(State(), reports[i..], o) == ScanAll(old(State()), reports, o)
      {
        assert reports[i..][1..] == reports[i + 1..];
        ReportTypeAnnotation(reports[i].0, reports[i].1, o);
        i := i + 1;
      }
    }

    /** A successful `newInstance()` of the reported class: a new object, numbered in creation order. */
    method NewCandidate(className: string) returns (obj: Obj)
      modifies this
      ensures obj == Obj(className, old(created)) && created == old(created) + 1
    {
      obj := Obj(className, created);
      created := created + 1;
    }

    /** The loop over `broadcastFilters()`: each filter class name is appended. */
    method AddFilters(names: seq<string>)
      modifies framework`broadcastFilters
      ensures framework.broadcastFilters == old(framework.broadcastFilters) + names
    {
      var i := 0;
      while i < |names|
        invariant 0 <= i <= |names|
        invariant framework.broadcastFilters == old(framework.broadcastFilters) + names[..i]
      {
        framework.AddBroadcasterFilter(names[i]);
        assert names[..i + 1] == names[..i] + [names[i]];
        i := i + 1;
      }
      assert names[..|names|] == names;
    }

    /** `setDefaultBroadcasterClassName(broadcaster)`, then the filter loop. */
    method ConfigureBroadcaster(broadcaster: string, filters: seq<string>)
      modifies framework`defaultBroadcaster, framework`broadcastFilters
      ensures framework.defaultBroadcaster == broadcaster
      ensures framework.broadcastFilters == old(framework.broadcastFilters) + filters
    {
      framework.SetDefaultBroadcasterClassName(broadcaster);
      AddFilters(filters);
    }

    /** The loop over `atmosphereConfig()`: one `AddInitParameterFrom` per string until one fails to split. */
    method AddInitParameters(configs: seq<string>) returns (ok: bool)
      modifies framework`initParams
      ensures ok == AllPairs(configs)
      ensures framework.initParams == old(framework.initParams) + ParsedPrefix(configs)
    {
      ghost var parsed := ParsedPrefix(configs);
      var i := 0;
      while i < |configs|
        invariant 0 <= i <= |parsed|
        invariant framework.initParams == old(framework.initParams) + parsed[..i]
      {
        ParsedPrefixAt(configs, i);
        var added := AddInitParameterFrom(configs[i]);
        if !added {
          ok := false;
          assert parsed[..i] == parsed;
          ParsedPrefixAll(configs);
          return;
        }
        assert parsed[..i + 1] == parsed[..i] + [parsed[i]];
        AppendAssoc(old(framework.initParams), parsed[..i], [parsed[i]]);
        i := i + 1;
      }
      assert parsed[..i] == parsed;
      ParsedPrefixAll(configs);
      ok := true;
    }

    /** One iteration: `nv = s.split("=")`, then `addInitParameter(nv[0], nv[1])`; `false` when the index throws. */
    method AddInitParameterFrom(s: string) returns (added: bool)
      modifies framework`initParams
      ensures added == KeyValue(s).Some?
      ensures framework.initParams
           == old(framework.initParams) + if added then [KeyValue(s).value] else []
    {
      var nv := Split(s);
      if |nv| < 2 {
        return false;
      }
      framework.AddInitParameter(nv[0], nv[1]);
      added := true;
    }

    method ReportAtmosphereHandler(className: string, o: Oracle)
      modifies this, framework
      ensures State() == Run(old(State()), AtmosphereHandlerSteps(className, o, old(created)))
    {
      var key := (AtmosphereHandlerService, className);
      RunCreate(State(), o, className,
        if key !in o.annotations then [Abort] else HandlerSteps(o.annotations[key], Obj(className, created), o));
      if !o.CanCreate(className) {
        return;
      }
      var handler := NewCandidate(className);
      if key !in o.annotations {
        // `a.broadcaster()` on a null annotation throws
        RunAbort(State(), []);
        assert [Abort] + [] == [Abort];
        return;
      }
      ConfigureHandler(handler, o.annotations[key], o);
    }

    /** The rest of the handler branch once the instance exists and the annotation is present. */
    method ConfigureHandler(handler: Obj, a: Annotation, o: Oracle)
      modifies framework
      ensures State() == Run(old(State()), HandlerSteps(a, handler, o))
    {
      ghost var tail := RegisterHandlerSteps(a, handler, o);
      ghost var afterProps := ConfigSteps(a.atmosphereConfig) + tail;
      ghost var afterBroadcaster := Guard(AllPairs(a.properties)) + afterProps;
      ghost var w0 := State();
      BroadcasterStepsRun(w0, a.broadcaster, a.broadcastFilters, afterBroadcaster);
      ConfigureBroadcaster(a.broadcaster, a.broadcastFilters);
      assert State() == WithBroadcaster(w0, a.broadcaster, a.broadcastFilters);
      var calls, propertiesOk := ApplyProperties(a.properties);
      if !propertiesOk {
        RunAbort(State(), afterProps);
        return;
      }
      assert afterBroadcaster == afterProps;
      ghost var w1 := State();
      ConfigStepsRun(w1, a.atmosphereConfig, tail);
      var configOk := AddInitParameters(a.atmosphereConfig);
      assert State() == WithInitParams(w1, ParsedPrefix(a.atmosphereConfig));
      if !configOk {
        return;
      }
      RegisterHandler(handler, calls, a, o);
    }

    /** `addAtmosphereHandler(path, handler, chain)`, then the broadcaster cache and session support. */
    method RegisterHandler(handler: Obj, calls: seq<PropertyCall>, a: Annotation, o: Oracle)
      requires calls == PropertyCalls(ParsedPrefix(a.properties))
      modifies framework
      ensures State() == Run(old(State()), RegisterHandlerSteps(a, handler, o))
    {
      var l := BuildChain(a.interceptors, o);
      var registration := Registration(a.path, Candidate(handler, calls), l);
      ghost var cache := Call(SetBroadcasterCache(a.broadcasterCache));
      ghost var session := Call(SetSessionSupport(a.supportSession));
      assert RegisterHandlerSteps(a, handler, o) == [Call(AddAtmosphereHandler(registration))] + ([cache] + [session]);
      RunCons(State(), Call(AddAtmosphereHandler(registration)), [cache] + [session]);
      framework.AddAtmosphereHandler(a.path, Candidate(handler, calls), l);
      RunCons(State(), cache, [session]);
      framework.SetBroadcasterCacheClassName(a.broadcasterCache);
      RunCall(State(), SetSessionSupport(a.supportSession));
      framework.SessionSupport(a.supportSession);
    }

    method ReportMeteor(className: string, o: Oracle)
      modifies this, framework
      ensures State() == Run(old(State()), MeteorSteps(className, o))
    {
      // new ReflectorServletProcessor(), setServletClassName(className): no framework effect
      var key := (MeteorService, className);
      if className !in o.loadable || key !in o.annotations {
        // `loadClass` throws, or `m.path()` on a null annotation does
        RunAbort(State(), []);
        assert [Abort] + [] == [Abort];
        return;
      }
      var m := o.annotations[key];
      var mapping := m.path;
      ghost var tail := [Call(AddAtmosphereHandler(Registration(mapping, ServletProcessor(className), Chain(m.interceptors, o))))];
      ghost var w0 := State();
      BroadcasterStepsRun(w0, m.broadcaster, m.broadcastFilters, ConfigSteps(m.atmosphereConfig) + tail);
      ConfigureBroadcaster(m.broadcaster, m.broadcastFilters);
      assert State() == WithBroadcaster(w0, m.broadcaster, m.broadcastFilters);
      ghost var w1 := State();
      ConfigStepsRun(w1, m.atmosphereConfig, tail);
      var configOk := AddInitParameters(m.atmosphereConfig);
      assert State() == WithInitParams(w1, ParsedPrefix(m.atmosphereConfig));
      if !configOk {
        return;
      }
      var l := BuildChain(m.interceptors, o);
      RunCall(State(), AddAtmosphereHandler(Registration(mapping, ServletProcessor(className), l)));
      framework.AddAtmosphereHandler(mapping, ServletProcessor(className), l);
    }

    method ReportWebSocketHandler(className: string, o: Oracle)
      modifies this, framework
      ensures State() == Run(old(State()), WebSocketHandlerSteps(className, o, old(created)))
    {
      var key := (WebSocketHandlerService, className);
      ghost var rest := WebSocketHandlerSteps(className, o, created)[1..];
      assert WebSocketHandlerSteps(className, o, created) == [Call(InitWebSocket)] + rest;
      RunCons(State(), Call(InitWebSocket), rest);
      framework.InitWebSocket();
      if className !in o.loadable || key !in o.annotations {
        // `loadClass` throws, or `m.path()` on a null annotation does
        RunAbort(State(), []);
        assert rest == [Abort] + [];
        return;
      }
      var m := o.annotations[key];
      // `m.path()` is read before the handler is instantiated; the default websocket
      // processor is assumed to be available
      var path := m.path;
      if className !in o.instantiable {
        RunAbort(State(), []);
        assert rest == [Abort] + [];
        return;
      }
      RunCons(State(), New, WebSocketRegistrationSteps(m, Obj(className, created)));
      var handler := NewCandidate(className);
      RegisterWebSocket(path, handler, m);
    }

    /** The websocket branch once the handler exists: register it, then configure the broadcaster. */
    method RegisterWebSocket(path: string, handler: Obj, m: Annotation)
      requires path == m.path
      modifies framework
      ensures State() == Run(old(State()), WebSocketRegistrationSteps(m, handler))
    {
      ghost var tail := [Call(SetBroadcasterCache(m.broadcasterCache))];
      RunCons(State(), Call(RegisterWebSocketHandler(path, handler)), BroadcasterSteps(m.broadcaster, m.broadcastFilters) + tail);
      framework.RegisterWebSocketHandler(path, handler);
      ghost var w0 := State();
      BroadcasterStepsRun(w0, m.broadcaster, m.broadcastFilters, tail);
      ConfigureBroadcaster(m.broadcaster, m.broadcastFilters);
      assert State() == WithBroadcaster(w0, m.broadcaster, m.broadcastFilters);
      RunCall(State(), SetBroadcasterCache(m.broadcasterCache));
      framework.SetBroadcasterCacheClassName(m.broadcasterCache);
    }

    method ReportInterceptor(className: string, o: Oracle)
      modifies this, framework
      ensures State() == Run(old(State()), InterceptorSteps(className, o, old(created)))
    {
      RunCreate(State(), o, className,
        if className in o.configurable then [Call(AddInterceptor(Obj(className, created)))] else [Abort]);
      if !o.CanCreate(className) {
        return;
      }
      var interceptor := NewCandidate(className);
      if className !in o.configurable {
        // `configure(config)` throws
        RunAbort(State(), []);
        assert [Abort] + [] == [Abort];
        return;
      }
      RunCall(State(), AddInterceptor(interceptor));
      framework.Interceptor(interceptor);
    }

    method ReportManaged(className: string, o: Oracle)
      modifies this, framework
      ensures State() == Run(old(State()), ManagedSteps(className, o, old(created)))
    {
      var key := (ManagedService, className);
      ghost var k := if key !in o.annotations then [Abort]
        else ManagedRegistrationSteps(o.annotations[key], Obj(className, created), o);
      RunCreate(State(), o, className, k);
      if !o.CanCreate(className) {
        return;
      }
      var handler := NewCandidate(className);
      var l := BuildChain(ManagedInterceptors, o);
      if key !in o.annotations {
        // `a.listeners()` on a null annotation throws
        RunAbort(State(), []);
        assert [Abort] + [] == [Abort];
        return;
      }
      RegisterManaged(handler, l, o.annotations[key], o);
    }

    /** The tail of the managed-service branch, once the four interceptors are built. */
    method RegisterManaged(handler: Obj, chain: seq<Interceptor>, a: Annotation, o: Oracle)
      requires chain == Chain(ManagedInterceptors, o)
      modifies framework
      ensures State() == Run(old(State()), ManagedRegistrationSteps(a, handler, o))
    {
      // the synthetic interceptor's `configure` does nothing, so it is always appended
      var l := chain + [ListenerAttacher(a.listeners)];
      var registration := Registration(a.path, Candidate(handler, []), l);
      RunCons(State(), Call(AddAtmosphereHandler(registration)), [Call(SetBroadcasterCache(HeaderBroadcasterCache))]);
      framework.AddAtmosphereHandler(a.path, Candidate(handler, []), l);
      RunCall(State(), SetBroadcasterCache(HeaderBroadcasterCache));
      framework.SetBroadcasterCacheClassName(HeaderBroadcasterCache);
    }

    method ReportManagedHandler(className: string, o: Oracle)
      modifies this, framework
      ensures State() == Run(old(State()), ManagedHandlerSteps(className, o, old(created)))
    {
      var key := (ManagedAtmosphereHandlerService, className);
      ghost var k := if key !in o.annotations then [Abort]
        else [Call(AddAtmosphereHandler(Registration(o.annotations[key].path, ManagedWrapper(Obj(className, created + 1)), [])))];
      RunCreate(State(), o, className, [New] + k);
      if !o.CanCreate(className) {
        return;
      }
      var inspected := NewCandidate(className);
      // the second `loadClass(className).newInstance()` repeats the first, so it completes too
      RunCons(State(), New, k);
      var wrapped := NewCandidate(className);
      if key !in o.annotations {
        // `a.path()` on a null annotation throws
        RunAbort(State(), []);
        assert [Abort] + [] == [Abort];
        return;
      }
      var a := o.annotations[key];
      RunCall(State(), AddAtmosphereHandler(Registration(a.path, ManagedWrapper(wrapped), [])));
      framework.AddAtmosphereHandler(a.path, ManagedWrapper(wrapped), []);
    }
  }
}
