/** The two-phase builder of a service definition: bindings are collected
    one by one in a mutable map keyed by fully-qualified method name, each
    checked as it arrives, and `Build` checks them against the service
    descriptor (given up front, or derived from the bindings) and freezes a
    copy into a `ServerServiceDefinition`. */
module ServiceDefinitionBuilder {
  import opened Wrappers
  import opened Descriptors
  import opened ServiceDefinition

  /** What `addMethod` maintains: every binding is keyed by its own full
      method name, and that name belongs to service `serviceName`. */
  predicate RegisteredUnder(serviceName: string, methods: map<string, ServerMethodDefinition>)
  {
    KeyedByName(methods) && forall n :: n in methods ==> ExtractFullServiceName(n) == Some(serviceName)
  }

  /** The effect of `addMethod(def)` on the bindings `methods` of service
      `serviceName`: its outcome, and the bindings afterwards. The prefix
      check comes first, the duplicate check second, and a failure leaves
      the bindings as they were. */
  function Register(serviceName: string, methods: map<string, ServerMethodDefinition>, def: ServerMethodDefinition)
    : (r: (Outcome<GrpcError>, map<string, ServerMethodDefinition>))
    ensures var name := def.methodDescriptor.fullMethodName;
            && (r.0.Pass? <==> ExtractFullServiceName(name) == Some(serviceName) && name !in methods)
            && (ExtractFullServiceName(name) != Some(serviceName) ==> r.0 == Fail(PrefixMismatch(serviceName, name)))
            && (ExtractFullServiceName(name) == Some(serviceName) && name in methods ==> r.0 == Fail(DuplicateMethod(name)))
            && (r.0.Fail? ==> r.1 == methods)
            && (r.0.Pass? ==> r.1.Keys == methods.Keys + {name} && |r.1| == |methods| + 1 && r.1[name] == def
                              && forall n :: n in methods ==> r.1[n] == methods[n])
    ensures RegisteredUnder(serviceName, methods) ==> RegisteredUnder(serviceName, r.1)
  {
    var name := def.methodDescriptor.fullMethodName;
    if ExtractFullServiceName(name) != Some(serviceName) then (Fail(PrefixMismatch(serviceName, name)), methods)
    else if name in methods then (Fail(DuplicateMethod(name)), methods)
    else (Pass, methods[name := def])
  }

  /** A descriptor entry that belongs to another service can never be bound,
      so a descriptor holding one never passes the check. */
  lemma ForeignEntryNeverConsistent(d: ServiceDescriptor, methods: map<string, ServerMethodDefinition>, i: nat)
    requires RegisteredUnder(d.name, methods)
    requires i < |d.methods| && ExtractFullServiceName(d.methods[i].fullMethodName) != Some(d.name)
    ensures !Consistent(d, methods)
    ensures MatchEntries(d.methods, methods).Failure?
  {
    MatchEntriesSucceeds(d.methods, methods);
  }

  /** The check and freeze of `build` (the copy, the walk over the
      descriptor's methods and the leftover test): it succeeds exactly when
      descriptor and bindings are in bijection, reporting otherwise the
      walk's error or one binding the descriptor does not list. */
  method CheckAndFreeze(d: ServiceDescriptor, methods: map<string, ServerMethodDefinition>)
    returns (r: Result<ServerServiceDefinition, GrpcError>)
    requires KeyedByName(methods)
    ensures r.Success? <==> Consistent(d, methods)
    ensures r.Success? ==> r.value == ServerServiceDefinition(d, methods) && r.value.Valid()
    ensures MatchEntries(d.methods, methods).Failure? ==> r == Failure(MatchEntries(d.methods, methods).error)
    ensures MatchEntries(d.methods, methods).Success? && r.Failure? ==>
              r.error.NoDescriptorEntry? && r.error.fullMethodName in methods
              && r.error.fullMethodName !in NameSet(d.methods)
    ensures r.Failure? ==> r.error.IsIllegalState()
  {
    CheckPassesIffConsistent(d, methods);
    MatchEntriesSucceeds(d.methods, methods);
    var tmp := methods;
    var i := 0;
    while i < |d.methods|
      invariant 0 <= i <= |d.methods|
      invariant MatchEntries(d.methods[i..], tmp) == MatchEntries(d.methods, methods)
    {
      var entry := d.methods[i];
      assert d.methods[i..][0] == entry && d.methods[i..][1..] == d.methods[i + 1..];
      var name := entry.fullMethodName;
      if name !in tmp {
        return Failure(NoMethodBound(name));
      }
      var removed := tmp[name];
      tmp := tmp - {name};
      if removed.methodDescriptor != entry {
        return Failure(NotSameInstance(name));
      }
      i := i + 1;
    }
    assert d.methods[i..] == [];
    if tmp != map[] {
      var name :| name in tmp;
      return Failure(NoDescriptorEntry(tmp[name].methodDescriptor.fullMethodName));
    }
    var frozen := NewServerServiceDefinition(Some(d), methods);
    r := Success(frozen.value);
  }

  /** `ServerServiceDefinition.Builder`. */
  class Builder {
    const serviceName: string
    /** `None` in name mode, where `Build` derives the descriptor. */
    const serviceDescriptor: Option<ServiceDescriptor>
    var methods: map<string, ServerMethodDefinition>

    ghost predicate Valid()
      reads this
    {
      RegisteredUnder(serviceName, methods)
      && (serviceDescriptor.Some? ==> serviceDescriptor.value.name == serviceName)
    }

    /** Name mode: no descriptor yet, no bindings. */
    constructor ForServiceName(serviceName: string)
      ensures Valid()
      ensures this.serviceName == serviceName && serviceDescriptor == None && methods == map[]
    {
      this.serviceName := serviceName;
      this.serviceDescriptor := None;
      this.methods := map[];
    }

    /** Descriptor mode: the service name is the descriptor's, no bindings. */
    constructor ForServiceDescriptor(d: ServiceDescriptor)
      ensures Valid()
      ensures serviceName == d.name && serviceDescriptor == Some(d) && methods == map[]
    {
      this.serviceDescriptor := Some(d);
      this.serviceName := d.name;
      this.methods := map[];
    }

    /** `addMethod(method, handler)`: null arguments are rejected before
        anything else, then the binding is added as `AddDefinition` does. */
    method AddMethod(md: Option<MethodDescriptor>, handler: Option<ServerCallHandler>) returns (r: Outcome<GrpcError>)
      requires Valid()
      modifies this
      ensures Valid()
      ensures md.None? || handler.None? ==> r == Fail(ServiceDescriptorNull) && methods == old(methods)
      ensures md.Some? && handler.Some? ==>
                (r, methods) == Register(serviceName, old(methods), ServerMethodDefinition(md.value, handler.value))
    {
      if md.None? {
        return Fail(ServiceDescriptorNull);
      }
      if handler.None? {
        return Fail(ServiceDescriptorNull);
      }
      r := AddDefinition(ServerMethodDefinition(md.value, handler.value));
    }

    /** `addMethod(def)`: the prefix check, then the duplicate check, then
        the binding is stored under its full method name. */
    method AddDefinition(def: ServerMethodDefinition) returns (r: Outcome<GrpcError>)
      requires Valid()
      modifies this
      ensures Valid()
      ensures (r, methods) == Register(serviceName, old(methods), def)
    {
      var name := def.methodDescriptor.fullMethodName;
      if ExtractFullServiceName(name) != Some(serviceName) {
        return Fail(PrefixMismatch(serviceName, name));
      }
      if name in methods {
        return Fail(DuplicateMethod(name));
      }
      methods := methods[name := def];
      r := Pass;
    }

    /** `build()`. It changes nothing in the builder (checking works on a
        copy), so later additions cannot reach the frozen definition. In name
        mode the derived descriptor lists exactly the bound descriptors, in
        the map's unspecified order, and the check cannot fail. */
    method Build() returns (r: Result<ServerServiceDefinition, GrpcError>)
      requires Valid()
      ensures serviceDescriptor.None? ==>
                r.Success? && r.value.serviceDescriptor.name == serviceName && r.value.methods == methods
      ensures serviceDescriptor.Some? ==>
                && (r.Success? <==> Consistent(serviceDescriptor.value, methods))
                && (r.Success? ==> r.value == ServerServiceDefinition(serviceDescriptor.value, methods))
                && (MatchEntries(serviceDescriptor.value.methods, methods).Failure? ==>
                      r == Failure(MatchEntries(serviceDescriptor.value.methods, methods).error))
                && (MatchEntries(serviceDescriptor.value.methods, methods).Success? && r.Failure? ==>
                      r.error.NoDescriptorEntry? && r.error.fullMethodName in methods
                      && r.error.fullMethodName !in NameSet(serviceDescriptor.value.methods))
      ensures r.Success? ==> r.value.Valid()
      ensures r.Success? ==> forall n :: r.value.GetMethod(n) == (if n in methods then Some(methods[n]) else None)
    {
      var d: ServiceDescriptor;
      if serviceDescriptor.None? {
        var derived: seq<MethodDescriptor> := [];
        var pending := methods.Keys;
        while pending != {}
          invariant pending <= methods.Keys
          invariant DistinctNames(derived) && Bound(derived, methods)
          invariant NameSet(derived) == methods.Keys - pending
          decreases pending
        {
          var name :| name in pending;
          var next := derived + [methods[name].methodDescriptor];
          assert NameSet(next) == NameSet(derived) + {name} by {
            forall x | x in NameSet(next) ensures x in NameSet(derived) + {name} {
              var i :| 0 <= i < |next| && next[i].fullMethodName == x;
              if i < |derived| { assert derived[i].fullMethodName == x; }
            }
            assert next[|derived|].fullMethodName == name;
            forall x | x in NameSet(derived) ensures x in NameSet(next) {
              var i :| 0 <= i < |derived| && derived[i].fullMethodName == x;
              assert next[i] == derived[i];
            }
          }
          derived := next;
          pending := pending - {name};
        }
        // The descriptor derived from the collected method descriptors
        // holds exactly them, under the builder's service name.
        d := ServiceDescriptor(serviceName, derived);
        assert Consistent(d, methods);
      } else {
        d := serviceDescriptor.value;
      }
      r := CheckAndFreeze(d, methods);
    }
  }

  /** `ServerServiceDefinition.builder(serviceName)`: a name-mode builder,
      or the null-name error. */
  method NewBuilder(serviceName: Option<string>) returns (r: Result<Builder, GrpcError>)
    ensures r.Failure? <==> serviceName.None?
    ensures r.Failure? ==> r.error == ServiceNameNull
    ensures r.Success? ==> fresh(r.value) && r.value.Valid() && r.value.serviceName == serviceName.value
                           && r.value.serviceDescriptor == None && r.value.methods == map[]
  {
    if serviceName.None? {
      return Failure(ServiceNameNull);
    }
    var b := new Builder.ForServiceName(serviceName.value);
    r := Success(b);
  }

  /** The descriptor-mode constructor: a builder checked against `d`, or
      the null-descriptor error. */
  method NewBuilderForDescriptor(d: Option<ServiceDescriptor>) returns (r: Result<Builder, GrpcError>)
    ensures r.Failure? <==> d.None?
    ensures r.Failure? ==> r.error == ServiceDescriptorNull
    ensures r.Success? ==> fresh(r.value) && r.value.Valid() && r.value.serviceName == d.value.name
                           && r.value.serviceDescriptor == d && r.value.methods == map[]
  {
    if d.None? {
      return Failure(ServiceDescriptorNull);
    }
    var b := new Builder.ForServiceDescriptor(d.value);
    r := Success(b);
  }
}
