/** The frozen service definition: a service descriptor together with the
    bindings of its methods, looked up by fully-qualified method name; the
    errors that building one can raise; and the consistency check that
    `Builder.build` runs between a descriptor's method list and the bindings. */
module ServiceDefinition {
  import opened Wrappers
  import opened Descriptors

  /** The exceptions the builder and the definition throw. The first five are
      `GrpcServerException`s, the last three `IllegalStateException`s. Null
      service descriptors, null method descriptors and null handlers all
      produce the one message "Service Descriptor cannot be null". */
  datatype GrpcError =
    | ServiceNameNull
    | ServiceDescriptorNull
    | PrefixMismatch(expectedServiceName: string, fullMethodName: string)
    | DuplicateMethod(fullMethodName: string)
    | NoMethodBound(fullMethodName: string)
    | NotSameInstance(fullMethodName: string)
    | NoDescriptorEntry(fullMethodName: string)
  {
    /** Whether Java reports this error as an `IllegalStateException`. */
    predicate IsIllegalState()
    {
      NoMethodBound? || NotSameInstance? || NoDescriptorEntry?
    }

    /** The exception's message text. */
    function Message(): string
    {
      match this
      case ServiceNameNull => "Service Name cannot be null"
      case ServiceDescriptorNull => "Service Descriptor cannot be null"
      case PrefixMismatch(expected, actual) =>
        "Method name should be prefixed with service name and separated with '/'. Expected service name: '"
        + expected + "'. Actual fully qualifed method name: '" + actual + "'."
      case DuplicateMethod(name) => "Method by same name already registered: " + name
      case NoMethodBound(name) => "No method bound for descriptor entry " + name
      case NotSameInstance(name) => "Bound method for " + name + " not same instance as method in service descriptor"
      case NoDescriptorEntry(name) => "No entry in descriptor matching bound method " + name
    }
  }

  /** `t` occurs in `s` as a contiguous piece. */
  ghost predicate Contains(s: string, t: string)
  {
    exists k: nat :: OccursAt(s, t, k)
  }

  /** `t` occurs in `s` starting at position `k`. */
  predicate OccursAt(s: string, t: string, k: nat)
  {
    k + |t| <= |s| && s[k..k + |t|] == t
  }

  lemma ContainsMiddle(a: string, t: string, b: string)
    ensures Contains(a + t + b, t)
  {
    var s := a + t + b;
    assert OccursAt(s, t, |a|);
  }

  /** Every message that is about a method names it, and the prefix mismatch
      message names both the expected service and the offending method. */
  lemma MessageNamesOffender(e: GrpcError)
    ensures e.PrefixMismatch? ==> Contains(e.Message(), e.expectedServiceName) && Contains(e.Message(), e.fullMethodName)
    ensures (e.DuplicateMethod? || e.NoMethodBound? || e.NotSameInstance? || e.NoDescriptorEntry?)
            ==> Contains(e.Message(), e.fullMethodName)
  {
    match e
    case PrefixMismatch(expected, actual) =>
      var head := "Method name should be prefixed with service name and separated with '/'. Expected service name: '";
      var mid := "'. Actual fully qualifed method name: '";
      assert e.Message() == head + expected + (mid + actual + "'.");
      ContainsMiddle(head, expected, mid + actual + "'.");
      assert e.Message() == (head + expected + mid) + actual + "'.";
      ContainsMiddle(head + expected + mid, actual, "'.");
    case DuplicateMethod(name) =>
      ContainsMiddle("Method by same name already registered: ", name, "");
      assert e.Message() == "Method by same name already registered: " + name + "";
    case NoMethodBound(name) =>
      ContainsMiddle("No method bound for descriptor entry ", name, "");
      assert e.Message() == "No method bound for descriptor entry " + name + "";
    case NotSameInstance(name) =>
      ContainsMiddle("Bound method for ", name, " not same instance as method in service descriptor");
    case NoDescriptorEntry(name) =>
      ContainsMiddle("No entry in descriptor matching bound method ", name, "");
      assert e.Message() == "No entry in descriptor matching bound method " + name + "";
    case _ =>
  }

  /** A piece of a piece of `s` is a piece of `s`. */
  lemma ContainsTransitive(s: string, u: string, t: string)
    requires Contains(s, u) && Contains(u, t)
    ensures Contains(s, t)
  {
    var k: nat :| OccursAt(s, u, k);
    var j: nat :| OccursAt(u, t, j);
    forall i | 0 <= i < |t| ensures s[k + j + i] == t[i] {
      assert u[j + i] == t[i];
      assert s[k..k + |u|][j + i] == s[k + j + i];
    }
    assert s[k + j..k + j + |t|] == t;
    assert OccursAt(s, t, k + j);
  }

  /** The prefix mismatch message also names the service the offending
      method belongs to, as part of its full method name. */
  lemma PrefixNamesActualService(expected: string, actual: string, service: string)
    requires ExtractFullServiceName(actual) == Some(service)
    ensures Contains(PrefixMismatch(expected, actual).Message(), service)
  {
    ExtractedIsPrefix(actual, service);
    assert OccursAt(actual, service, 0);
    MessageNamesOffender(PrefixMismatch(expected, actual));
    ContainsTransitive(PrefixMismatch(expected, actual).Message(), actual, service);
  }

  /** Every binding is stored under its own method descriptor's full name. */
  predicate KeyedByName(methods: map<string, ServerMethodDefinition>)
  {
    forall n :: n in methods ==> methods[n].methodDescriptor.fullMethodName == n
  }

  /** Each entry of `entries` has a binding under its name, and that
      binding's descriptor is that very entry. */
  predicate Bound(entries: seq<MethodDescriptor>, methods: map<string, ServerMethodDefinition>)
  {
    forall i :: 0 <= i < |entries| ==>
      entries[i].fullMethodName in methods && methods[entries[i].fullMethodName].methodDescriptor == entries[i]
  }

  /** The bijection between a descriptor's method list and the bindings:
      every listed method is bound to itself, no name is listed twice, and
      nothing else is bound. */
  predicate Consistent(d: ServiceDescriptor, methods: map<string, ServerMethodDefinition>)
  {
    DistinctNames(d.methods) && Bound(d.methods, methods) && methods.Keys == NameSet(d.methods)
  }

  /** The walk over the descriptor's methods in order, removing each name
      from the not-yet-matched bindings: the bindings left over, or the error
      for the first entry that has no binding left or is bound to another
      descriptor object. */
  function MatchEntries(entries: seq<MethodDescriptor>, unmatched: map<string, ServerMethodDefinition>)
    : (r: Result<map<string, ServerMethodDefinition>, GrpcError>)
    ensures r.Success? ==> r.value.Keys <= unmatched.Keys && forall n :: n in r.value ==> r.value[n] == unmatched[n]
    ensures r.Failure? ==> (r.error.NoMethodBound? || r.error.NotSameInstance?)
    decreases |entries|
  {
    if entries == [] then Success(unmatched)
    else
      var name := entries[0].fullMethodName;
      if name !in unmatched then Failure(NoMethodBound(name))
      else if unmatched[name].methodDescriptor != entries[0] then Failure(NotSameInstance(name))
      else MatchEntries(entries[1..], unmatched - {name})
  }

  /** The walk succeeds exactly when the entries have distinct names and
      each is bound to itself; it then leaves the bindings of all other names. */
  lemma {:induction false} MatchEntriesSucceeds(entries: seq<MethodDescriptor>, unmatched: map<string, ServerMethodDefinition>)
    ensures MatchEntries(entries, unmatched).Success? <==> DistinctNames(entries) && Bound(entries, unmatched)
    ensures MatchEntries(entries, unmatched).Success? ==> MatchEntries(entries, unmatched).value == unmatched - NameSet(entries)
    decreases |entries|
  {
    if entries == [] {
      assert NameSet(entries) == {};
      assert unmatched - {} == unmatched;
    } else {
      var name := entries[0].fullMethodName;
      var rest := entries[1..];
      var left := unmatched - {name};
      MatchEntriesSucceeds(rest, left);
      assert forall i :: 0 <= i < |rest| ==> rest[i] == entries[i + 1];
      NameSetCons(entries);
      if DistinctNames(entries) && Bound(entries, unmatched) {
        assert DistinctNames(rest);
        assert Bound(rest, left) by {
          forall i | 0 <= i < |rest|
            ensures rest[i].fullMethodName in left && left[rest[i].fullMethodName].methodDescriptor == rest[i]
          {
            assert entries[0].fullMethodName != entries[i + 1].fullMethodName;
          }
        }
      }
      if MatchEntries(entries, unmatched).Success? {
        assert name in unmatched && unmatched[name].methodDescriptor == entries[0];
        assert DistinctNames(entries) by {
          forall i, j | 0 <= i < j < |entries| ensures entries[i].fullMethodName != entries[j].fullMethodName {
            if i == 0 {
              assert rest[j - 1].fullMethodName in left;
            } else {
              assert rest[i - 1] == entries[i] && rest[j - 1] == entries[j];
            }
          }
        }
        assert Bound(entries, unmatched) by {
          forall i | 0 <= i < |entries|
            ensures entries[i].fullMethodName in unmatched && unmatched[entries[i].fullMethodName].methodDescriptor == entries[i]
          {
            if i > 0 { assert rest[i - 1] == entries[i]; }
          }
        }
        assert left - NameSet(rest) == unmatched - NameSet(entries);
      }
    }
  }

  /** A failed walk stops at an entry `i` such that all earlier entries
      matched, and reports that entry: as unbound when no binding is left
      under its name (never bound, or consumed by an earlier entry of the
      same name), otherwise as bound to a different descriptor object. */
  lemma {:induction false} MatchFailureLocated(entries: seq<MethodDescriptor>, unmatched: map<string, ServerMethodDefinition>)
    returns (i: nat)
    requires MatchEntries(entries, unmatched).Failure?
    ensures i < |entries|
    ensures DistinctNames(entries[..i]) && Bound(entries[..i], unmatched)
    ensures var name := entries[i].fullMethodName;
            var left := unmatched - NameSet(entries[..i]);
            && (name !in left ==> MatchEntries(entries, unmatched).error == NoMethodBound(name))
            && (name in left ==>
                  left[name].methodDescriptor != entries[i] && MatchEntries(entries, unmatched).error == NotSameInstance(name))
    decreases |entries|
  {
    var name := entries[0].fullMethodName;
    assert entries[..0] == [] && NameSet(entries[..0]) == {};
    assert unmatched - {} == unmatched;
    if name !in unmatched || unmatched[name].methodDescriptor != entries[0] {
      i := 0;
    } else {
      var rest := entries[1..];
      var left := unmatched - {name};
      var j := MatchFailureLocated(rest, left);
      i := j + 1;
      MatchEntriesSucceeds(entries[..i], unmatched);
      MatchEntriesSucceeds(rest[..j], left);
      assert entries[..i][1..] == rest[..j];
      assert entries[i] == rest[j];
    }
  }

  /** A descriptor that lists the same name twice never passes the walk. */
  lemma DuplicateEntryFails(entries: seq<MethodDescriptor>, unmatched: map<string, ServerMethodDefinition>)
    requires !DistinctNames(entries)
    ensures MatchEntries(entries, unmatched).Failure?
  {
    MatchEntriesSucceeds(entries, unmatched);
  }

  /** The walk consumes every binding exactly when descriptor and bindings
      are in bijection. */
  lemma CheckPassesIffConsistent(d: ServiceDescriptor, methods: map<string, ServerMethodDefinition>)
    ensures (MatchEntries(d.methods, methods).Success? && MatchEntries(d.methods, methods).value == map[])
            <==> Consistent(d, methods)
  {
    MatchEntriesSucceeds(d.methods, methods);
    if DistinctNames(d.methods) && Bound(d.methods, methods) {
      assert NameSet(d.methods) <= methods.Keys;
      if methods - NameSet(d.methods) == map[] {
        assert methods.Keys <= NameSet(d.methods) by {
          forall n | n in methods ensures n in NameSet(d.methods) {
            assert n !in methods - NameSet(d.methods);
          }
        }
      }
    }
  }

  /** The immutable result of building: a descriptor and its own copy of the
      bindings. Being a value, it cannot change when the builder does. */
  datatype ServerServiceDefinition = ServerServiceDefinition(serviceDescriptor: ServiceDescriptor, methods: map<string, ServerMethodDefinition>)
  {
    /** The descriptor; in a valid definition it names exactly the bound methods. */
    function GetServiceDescriptor(): (d: ServiceDescriptor)
      ensures Valid() ==> NameSet(d.methods) == methods.Keys && DistinctNames(d.methods)
    {
      serviceDescriptor
    }

    /** All bindings of the service, in no particular order. */
    function GetMethods(): (ms: set<ServerMethodDefinition>)
      ensures forall n :: n in methods ==> methods[n] in ms
      ensures Valid() ==> |ms| == |serviceDescriptor.methods|
    {
      if Valid() then
        ValidKeyedByName(this);
        KeyedBindingCount(methods);
        DistinctNameCount(serviceDescriptor.methods);
        methods.Values
      else
        methods.Values
    }

    /** The binding under a fully-qualified method name, `None` (Java `null`)
        when there is none. */
    function GetMethod(methodName: string): (r: Option<ServerMethodDefinition>)
      ensures r.Some? <==> methodName in methods
      ensures r.Some? && Valid() ==> r.value.methodDescriptor.fullMethodName == methodName
    {
      if methodName in methods then Some(methods[methodName]) else None
    }

    /** What a successful build guarantees: descriptor and bindings agree. */
    predicate Valid()
    {
      Consistent(serviceDescriptor, methods)
    }
  }

  /** The private constructor: rejects a null descriptor, otherwise keeps the
      descriptor and a copy of the bindings, with the same lookups. */
  function NewServerServiceDefinition(d: Option<ServiceDescriptor>, methods: map<string, ServerMethodDefinition>)
    : (r: Result<ServerServiceDefinition, GrpcError>)
    ensures r.Failure? <==> d.None?
    ensures r.Failure? ==> r.error == ServiceDescriptorNull
    ensures r.Success? ==> r.value.GetServiceDescriptor() == d.value && r.value.methods == methods
    ensures r.Success? ==> forall n :: r.value.GetMethod(n).Some? <==> n in methods
    ensures r.Success? ==> forall n :: n in methods ==> r.value.GetMethod(n) == Some(methods[n])
  {
    if d.None? then Failure(ServiceDescriptorNull) else Success(ServerServiceDefinition(d.value, methods))
  }

  /** In a valid definition a name can be looked up exactly when the
      descriptor lists it, and the lookup yields the binding of that very
      descriptor entry. */
  lemma LookupAgreesWithDescriptor(def: ServerServiceDefinition, methodName: string)
    requires def.Valid()
    ensures def.GetMethod(methodName).Some? <==> methodName in NameSet(def.serviceDescriptor.methods)
    ensures forall i :: 0 <= i < |def.serviceDescriptor.methods| && def.serviceDescriptor.methods[i].fullMethodName == methodName
              ==> def.GetMethod(methodName).Some? && def.GetMethod(methodName).value.methodDescriptor == def.serviceDescriptor.methods[i]
  {
  }

  /** In a valid definition every binding sits under its own name. */
  lemma ValidKeyedByName(def: ServerServiceDefinition)
    requires def.Valid()
    ensures KeyedByName(def.methods)
  {
    var ms := def.serviceDescriptor.methods;
    forall n | n in def.methods ensures def.methods[n].methodDescriptor.fullMethodName == n {
      var i :| 0 <= i < |ms| && ms[i].fullMethodName == n;
    }
  }

  /** Distinct names give as many names as entries. */
  lemma {:induction false} DistinctNameCount(entries: seq<MethodDescriptor>)
    requires DistinctNames(entries)
    ensures |NameSet(entries)| == |entries|
  {
    if entries != [] {
      var init := entries[..|entries| - 1];
      var last := entries[|entries| - 1].fullMethodName;
      DistinctNameCount(init);
      assert NameSet(entries) == NameSet(init) + {last} by {
        forall x | x in NameSet(entries) ensures x in NameSet(init) + {last} {
          var i :| 0 <= i < |entries| && entries[i].fullMethodName == x;
          if i < |entries| - 1 { assert init[i].fullMethodName == x; }
        }
      }
      assert last !in NameSet(init);
    }
  }

  /** Keyed bindings are all different, so there are as many as names. */
  lemma {:induction false} KeyedBindingCount(methods: map<string, ServerMethodDefinition>)
    requires KeyedByName(methods)
    ensures |methods.Values| == |methods.Keys|
    decreases |methods.Keys|
  {
    if methods != map[] {
      var n :| n in methods;
      var rest := methods - {n};
      KeyedBindingCount(rest);
      assert rest.Values == methods.Values - {methods[n]} by {
        forall v | v in methods.Values ensures v in rest.Values || v == methods[n] {
          var k :| k in methods && methods[k] == v;
          if k != n { assert rest[k] == v; }
        }
      }
      assert methods.Keys == rest.Keys + {n};
    }
  }

  /** A valid definition binds one definition per descriptor entry, and the
      bound definitions are those of exactly the descriptor's methods. */
  lemma MethodsMatchDescriptor(def: ServerServiceDefinition)
    requires def.Valid()
    ensures |def.GetMethods()| == |def.serviceDescriptor.methods|
    ensures forall m :: m in def.GetMethods() ==> m.methodDescriptor in def.serviceDescriptor.methods
    ensures forall i :: 0 <= i < |def.serviceDescriptor.methods| ==>
              exists m :: m in def.GetMethods() && m.methodDescriptor == def.serviceDescriptor.methods[i]
  {
    var ms := def.serviceDescriptor.methods;
    forall m | m in def.GetMethods() ensures m.methodDescriptor in ms {
      var n :| n in def.methods && def.methods[n] == m;
      var i :| 0 <= i < |ms| && ms[i].fullMethodName == n;
    }
    forall i | 0 <= i < |ms| ensures exists m :: m in def.GetMethods() && m.methodDescriptor == ms[i] {
      assert def.methods[ms[i].fullMethodName] in def.GetMethods();
    }
  }
}
