/**
 * The function registry of MutlthreadTest/service.h: a QMap from a name to a
 * boost::any, filled by registerFunction and read back by getFunction, which
 * casts the stored value to one std::function signature.
 */
module ServiceRegistry {
  import opened Wrappers

  /** The ServiceType enumeration; KReadingService is 0x1 and the rest follow it. */
  datatype ServiceType =
    | KReadingService
    | KPersistenceService
    | KExportService
    | KSynchronizeService
    | KCommunicationService
    | KPackagerService

  /** The integer value of each enumerator. */
  function ServiceTypeValue(t: ServiceType): (n: int)
    ensures 1 <= n <= 6
    ensures t == KReadingService <==> n == 1
  {
    match t
    case KReadingService => 0x1
    case KPersistenceService => 2
    case KExportService => 3
    case KSynchronizeService => 4
    case KCommunicationService => 5
    case KPackagerService => 6
  }

  /** Distinct enumerators have distinct values. */
  lemma ServiceTypeValuesDistinct(s: ServiceType, t: ServiceType)
    ensures ServiceTypeValue(s) == ServiceTypeValue(t) ==> s == t
  {
  }

  /** The signature `R(Args...)` of a std::function, by type names. */
  datatype Signature = Signature(returnType: string, argumentTypes: seq<string>)

  /** The dynamic type held by a boost::any. */
  datatype TypeTag = StdFunction(signature: Signature) | OtherType(name: string)

  /** An opaque handle standing for the stored callable (or other object). */
  datatype Handle = Handle(id: nat)

  /** A boost::any: empty, or holding one value of one exact type. */
  datatype Any = Empty | Holding(heldType: TypeTag, content: Handle)

  /** The exception getFunction declares. */
  datatype BadAnyCast = BadAnyCast

  /**
   * boost::any_cast<T>: succeeds exactly when the any holds a value whose
   * type is T; an empty any never casts.
   */
  function AnyCast(a: Any, target: TypeTag): (r: Result<Handle, BadAnyCast>)
    ensures r.Ok? <==> a.Holding? && a.heldType == target
    ensures r.Ok? ==> r.value == a.content
  {
    if a.Holding? && a.heldType == target then Ok(a.content) else Err(BadAnyCast)
  }

  /** QMap::value: the stored value, or a default-constructed (empty) any. */
  function MapValue(m: map<string, Any>, key: string): Any
  {
    if key in m then m[key] else Empty
  }

  /** QMap::insert: adds the key or overwrites its value; every other key is untouched. */
  function Insert(m: map<string, Any>, key: string, value: Any): (r: map<string, Any>)
    ensures r.Keys == m.Keys + {key}
    ensures r[key] == value
    ensures forall k :: k in m && k != key ==> r[k] == m[k]
    ensures key in m ==> |r| == |m|
    ensures key !in m ==> |r| == |m| + 1
  {
    m[key := value]
  }

  /**
   * The body of getFunction<R, Args...>(key): look the key up and cast to
   * std::function<R(Args...)>. It succeeds exactly when the key was registered
   * with a std::function of that very signature, and then yields it.
   */
  function Lookup(m: map<string, Any>, key: string, signature: Signature): (r: Result<Handle, BadAnyCast>)
    ensures r.Ok? ==> key in m && m[key] == Holding(StdFunction(signature), r.value)
    ensures key in m && m[key].Holding? && m[key].heldType == StdFunction(signature) ==> r == Ok(m[key].content)
    ensures key !in m ==> r == Err(BadAnyCast)
  {
    AnyCast(MapValue(m, key), StdFunction(signature))
  }

  /** After registering a std::function under a key, getFunction at its own signature returns it. */
  lemma GetAfterRegister(m: map<string, Any>, key: string, signature: Signature, f: Handle)
    ensures Lookup(Insert(m, key, Holding(StdFunction(signature), f)), key, signature) == Ok(f)
  {
  }

  /** getFunction at any other signature than the one stored throws bad_any_cast. */
  lemma GetWithOtherSignatureFails(m: map<string, Any>, key: string, stored: Signature, asked: Signature, f: Handle)
    requires stored != asked
    ensures Lookup(Insert(m, key, Holding(StdFunction(stored), f)), key, asked) == Err(BadAnyCast)
  {
  }

  /** One call to registerFunction. */
  datatype Registration = Registration(key: string, value: Any)

  /** The map after a sequence of registrations on an empty registry, in order. */
  function Registered(regs: seq<Registration>): map<string, Any>
  {
    if regs == [] then map[]
    else
      var last := regs[|regs| - 1];
      Insert(Registered(regs[..|regs| - 1]), last.key, last.value)
  }

  /** The names of a sequence of registrations. */
  function Names(regs: seq<Registration>): set<string>
  {
    set r | r in regs :: r.key
  }

  lemma NamesOfSnoc(init: seq<Registration>, last: Registration)
    ensures Names(init + [last]) == Names(init) + {last.key}
  {
    var regs := init + [last];
    forall k | k in Names(regs) ensures k in Names(init) + {last.key} {
      var r :| r in regs && r.key == k;
      if r != last { assert r in init; }
    }
    forall k | k in Names(init) ensures k in Names(regs) {
      var r :| r in init && r.key == k;
      assert r in regs;
    }
  }

  /** The registry holds exactly the keys that were ever registered. */
  lemma {:induction false} RegisteredKeys(regs: seq<Registration>)
    ensures Registered(regs).Keys == Names(regs)
  {
    if regs != [] {
      var init, last := regs[..|regs| - 1], regs[|regs| - 1];
      RegisteredKeys(init);
      assert regs == init + [last];
      NamesOfSnoc(init, last);
    }
  }

  /** The last registration of a key wins: that is what getFunction sees. */
  lemma {:induction false} LastRegistrationWins(regs: seq<Registration>, i: nat)
    requires i < |regs|
    requires forall j :: i < j < |regs| ==> regs[j].key != regs[i].key
    ensures regs[i].key in Registered(regs)
    ensures Registered(regs)[regs[i].key] == regs[i].value
  {
    if i < |regs| - 1 {
      var init := regs[..|regs| - 1];
      assert init[i] == regs[i];
      LastRegistrationWins(init, i);
    }
  }

  /** A key never registered is absent, so getFunction on it throws bad_any_cast. */
  lemma {:induction false} NeverRegisteredFails(regs: seq<Registration>, key: string, signature: Signature)
    requires forall j :: 0 <= j < |regs| ==> regs[j].key != key
    ensures key !in Registered(regs)
    ensures Lookup(Registered(regs), key, signature) == Err(BadAnyCast)
  {
    if regs != [] {
      var init := regs[..|regs| - 1];
      assert forall j :: 0 <= j < |init| ==> init[j] == regs[j];
      NeverRegisteredFails(init, key, signature);
    }
  }

  /**
   * The registry part of class Service. The ghost history records every
   * registerFunction call; the map is always what those calls produce.
   */
  class Service {
    var serviceMap: map<string, Any>
    ghost var registrations: seq<Registration>

    ghost predicate Valid()
      reads this
    {
      serviceMap == Registered(registrations)
    }

    constructor ()
      ensures Valid() && registrations == [] && serviceMap == map[]
    {
      serviceMap := map[];
      registrations := [];
    }

    /** registerFunction: inserts or overwrites the entry under `key`. */
    method RegisterFunction(key: string, value: Any)
      requires Valid()
      modifies this
      ensures Valid()
      ensures registrations == old(registrations) + [Registration(key, value)]
      ensures serviceMap == Insert(old(serviceMap), key, value)
      ensures key in old(serviceMap) ==> |serviceMap| == |old(serviceMap)|
      ensures key !in old(serviceMap) ==> |serviceMap| == |old(serviceMap)| + 1
    {
      serviceMap := Insert(serviceMap, key, value);
      registrations := registrations + [Registration(key, value)];
      assert registrations[..|registrations| - 1] == old(registrations);
    }

    /** getFunction<R, Args...>: a lookup and cast that leaves the map as it was. */
    method GetFunction(key: string, signature: Signature) returns (r: Result<Handle, BadAnyCast>)
      ensures r == Lookup(serviceMap, key, signature)
      ensures Valid() ==> r == Lookup(Registered(registrations), key, signature)
      ensures r.Ok? <==> key in serviceMap && serviceMap[key].Holding? && serviceMap[key].heldType == StdFunction(signature)
    {
      var func := MapValue(serviceMap, key);
      r := AnyCast(func, StdFunction(signature));
    }
  }
}
