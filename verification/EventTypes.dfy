/** Event type codes and the driver's per-type counters. */
module EventTypes {

  datatype Category =
    | ProcessEvents | ImageEvents | ThreadEvents | RegistryEvents | FileEvents | HandleEvents
    | NotCounted

  function CategoryOf(eventType: nat): Category {
    if eventType == 1 || eventType == 2 then ProcessEvents
    else if eventType == 10 then ImageEvents
    else if eventType == 20 || eventType == 21 then ThreadEvents
    else if 30 <= eventType <= 34 then RegistryEvents
    else if 40 <= eventType <= 44 then FileEvents
    else if eventType == 50 || eventType == 51 then HandleEvents
    else NotCounted
  }

  datatype TypeCounters = TypeCounters(process: nat, image: nat, thread: nat, registry: nat, file: nat, handle: nat) {
    /** IncrementTypeCounter: the switch that bumps one counter, or none for a type outside it. */
    function Increment(eventType: nat): TypeCounters {
      match CategoryOf(eventType)
      case ProcessEvents => this.(process := process + 1)
      case ImageEvents => this.(image := image + 1)
      case ThreadEvents => this.(thread := thread + 1)
      case RegistryEvents => this.(registry := registry + 1)
      case FileEvents => this.(file := file + 1)
      case HandleEvents => this.(handle := handle + 1)
      case NotCounted => this
    }

    function Of(c: Category): nat {
      match c
      case ProcessEvents => process
      case ImageEvents => image
      case ThreadEvents => thread
      case RegistryEvents => registry
      case FileEvents => file
      case HandleEvents => handle
      case NotCounted => 0
    }

    function Total(): nat {
      process + image + thread + registry + file + handle
    }
  }

  const ZERO_COUNTERS := TypeCounters(0, 0, 0, 0, 0, 0)

  /** One event of a type went from one count to the next: by one if its type is among those counted. */
  predicate CountedAmong(before: nat, after: nat, eventType: nat, types: set<int>) {
    after == before + if eventType in types then 1 else 0
  }

  /** One event of the type is counted, in the one counter that its code belongs to and in no other. */
  predicate CountsOne(before: TypeCounters, after: TypeCounters, eventType: nat) {
    && CountedAmong(before.process, after.process, eventType, {1, 2})
    && CountedAmong(before.image, after.image, eventType, {10})
    && CountedAmong(before.thread, after.thread, eventType, {20, 21})
    && CountedAmong(before.registry, after.registry, eventType, {30, 31, 32, 33, 34})
    && CountedAmong(before.file, after.file, eventType, {40, 41, 42, 43, 44})
    && CountedAmong(before.handle, after.handle, eventType, {50, 51})
  }

  lemma IncrementCountsOne(types: TypeCounters, eventType: nat)
    ensures CountsOne(types, types.Increment(eventType), eventType)
  {
  }

  /** The types that have a counter. */
  lemma CountedTypes(eventType: nat)
    ensures CategoryOf(eventType) != NotCounted <==>
            eventType in {1, 2, 10, 20, 21, 30, 31, 32, 33, 34, 40, 41, 42, 43, 44, 50, 51}
  {
  }
}
