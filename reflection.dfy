/**
 * What the processor learns through Java reflection, fixed in advance: the
 * annotation kinds it is told about, the metadata each annotated class
 * carries, and which classes can be loaded, instantiated and configured.
 * Every `Throwable` the reflective calls can raise collapses into "the class
 * is not in the corresponding set".
 */
module Reflection {

  /** The annotation a reported class carries; the seventeen listed kinds, or any other annotation. */
  datatype Kind =
    | AtmosphereHandlerService
    | BroadcasterCacheService
    | BroadcasterFilterService
    | BroadcasterFactoryService
    | BroadcasterService
    | MeteorService
    | WebSocketHandlerService
    | WebSocketProtocolService
    | AtmosphereInterceptorService
    | BroadcasterListenerService
    | AsyncSupportService
    | AsyncSupportListenerService
    | WebSocketProcessorService
    | BroadcasterCacheInspectorService
    | ManagedService
    | EndpoinMapperService
    | ManagedAtmosphereHandlerService
    | Unlisted(name: string)

  /**
   * The attributes an annotation instance carries, with class-valued attributes
   * given by class name. Each kind reads only the attributes it declares.
   */
  datatype Annotation = Annotation(
    path: string,
    broadcaster: string,
    broadcastFilters: seq<string>,
    properties: seq<string>,
    atmosphereConfig: seq<string>,
    interceptors: seq<string>,
    broadcasterCache: string,
    supportSession: bool,
    listeners: seq<string>)

  /**
   * The outcome of every reflective call, by class name:
   * `loadClass` succeeds for `loadable`, `newInstance()` (and the cast that
   * follows it) for `instantiable`, `configure(config)` on a fresh instance for
   * `configurable`; `getAnnotation(kind)` on a class returns the entry of
   * `annotations`, or null when there is none.
   */
  datatype Oracle = Oracle(
    loadable: set<string>,
    instantiable: set<string>,
    configurable: set<string>,
    annotations: map<(Kind, string), Annotation>)
  {
    /** `cl.loadClass(c).newInstance()` completes. */
    predicate CanCreate(c: string) {
      c in loadable && c in instantiable
    }

    /** `c.newInstance()` followed by `configure(..)` completes, for an interceptor class. */
    predicate Usable(c: string) {
      c in instantiable && c in configurable
    }
  }

  /** An object created from a reported class; `id` tells apart two instances of one class. */
  datatype Obj = Obj(cls: string, id: nat)
}
