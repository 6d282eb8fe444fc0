/** Clients of the builder, showing what callers can prove from the
    contracts alone: a service built by name, the rejected additions, and
    services whose declared descriptor disagrees with their bindings. Each
    is stated for any names that split as the naming convention says, and
    instantiated once with the names of a greeter service. */
module Scenarios {
  import opened Wrappers
  import opened Descriptors
  import opened ServiceDefinition
  import opened ServiceDefinitionBuilder

  /** The greeter's names split as intended. */
  lemma GreeterNames()
    ensures ExtractFullServiceName("pkg.Greeter/SayHello") == Some("pkg.Greeter")
    ensures ExtractFullServiceName("pkg.Greeter/SayBye") == Some("pkg.Greeter")
    ensures ExtractFullServiceName("pkg.Greeter/Missing") == Some("pkg.Greeter")
    ensures ExtractFullServiceName("pkg.Other/Op") == Some("pkg.Other")
  {
    ExtractGenerated("pkg.Greeter", "SayHello");
    assert GenerateFullMethodName("pkg.Greeter", "SayHello") == "pkg.Greeter/SayHello";
    ExtractGenerated("pkg.Greeter", "SayBye");
    assert GenerateFullMethodName("pkg.Greeter", "SayBye") == "pkg.Greeter/SayBye";
    ExtractGenerated("pkg.Greeter", "Missing");
    assert GenerateFullMethodName("pkg.Greeter", "Missing") == "pkg.Greeter/Missing";
    ExtractGenerated("pkg.Other", "Op");
    assert GenerateFullMethodName("pkg.Other", "Op") == "pkg.Other/Op";
  }

  /** Bind one method by name, build, and look names up; a method added
      after the build reaches the builder, not the definition. */
  method BuildByName(service: string, hello: string, missing: string)
    requires ExtractFullServiceName(hello) == Some(service)
    requires ExtractFullServiceName(missing) == Some(service)
    requires hello != missing
  {
    var started := NewBuilder(Some(service));
    var b := started.value;
    var sayHello := MethodDescriptor(hello, 1);
    var handler := ServerCallHandler(1);
    var added := b.AddMethod(Some(sayHello), Some(handler));
    assert added == Pass;
    var built := b.Build();
    var def := built.value;
    assert def.GetMethod(hello) == Some(ServerMethodDefinition(sayHello, handler));
    assert def.GetMethod(missing) == None;
    assert def.serviceDescriptor.name == service;
    assert def.serviceDescriptor.methods == [sayHello] by {
      LookupAgreesWithDescriptor(def, hello);
      MethodsMatchDescriptor(def);
    }

    var late := b.AddMethod(Some(MethodDescriptor(missing, 2)), Some(handler));
    assert late == Pass && missing in b.methods;
    assert def.GetMethod(missing) == None;
  }

  /** The failures of `AddMethod`, each leaving the bindings as they were;
      the prefix error names both the expected and the foreign service. */
  method RejectedAdditions(service: string, hello: string, foreignService: string, foreign: string)
    requires ExtractFullServiceName(hello) == Some(service)
    requires ExtractFullServiceName(foreign) == Some(foreignService) && foreignService != service
  {
    var started := NewBuilder(Some(service));
    var b := started.value;
    var handler := ServerCallHandler(1);
    var added := b.AddMethod(Some(MethodDescriptor(hello, 1)), Some(handler));
    var again := b.AddMethod(Some(MethodDescriptor(hello, 2)), Some(handler));
    assert again == Fail(DuplicateMethod(hello));
    var other := b.AddMethod(Some(MethodDescriptor(foreign, 3)), Some(handler));
    assert other == Fail(PrefixMismatch(service, foreign));
    MessageNamesOffender(other.error);
    PrefixNamesActualService(service, foreign, foreignService);
    assert Contains(other.error.Message(), service) && Contains(other.error.Message(), foreignService);
    var absent := b.AddMethod(None, Some(handler));
    assert absent == Fail(ServiceDescriptorNull);
    var noHandler := b.AddMethod(Some(MethodDescriptor(foreign, 3)), None);
    assert noHandler == Fail(ServiceDescriptorNull);
    assert b.methods == map[hello := ServerMethodDefinition(MethodDescriptor(hello, 1), handler)];
  }

  /** Descriptor mode: a declared method that is never bound. */
  method UnboundDescriptorEntry(service: string, hello: string, bye: string)
    requires ExtractFullServiceName(hello) == Some(service)
    requires ExtractFullServiceName(bye) == Some(service)
    requires hello != bye
  {
    var sayHello := MethodDescriptor(hello, 1);
    var started := NewBuilderForDescriptor(Some(ServiceDescriptor(service, [sayHello, MethodDescriptor(bye, 2)])));
    var b := started.value;
    var added := b.AddMethod(Some(sayHello), Some(ServerCallHandler(1)));
    var built := b.Build();
    assert built == Failure(NoMethodBound(bye));
  }

  /** Descriptor mode: a bound method that the descriptor does not list. */
  method UnlistedBinding(service: string, hello: string, bye: string)
    requires ExtractFullServiceName(hello) == Some(service)
    requires ExtractFullServiceName(bye) == Some(service)
    requires hello != bye
  {
    var sayHello := MethodDescriptor(hello, 1);
    var handler := ServerCallHandler(1);
    NameSetSingleton(sayHello);
    var started := NewBuilderForDescriptor(Some(ServiceDescriptor(service, [sayHello])));
    var b := started.value;
    var added := b.AddMethod(Some(sayHello), Some(handler));
    added := b.AddMethod(Some(MethodDescriptor(bye, 2)), Some(handler));
    assert b.methods.Keys == {hello, bye};
    var built := b.Build();
    assert built == Failure(NoDescriptorEntry(bye));
  }

  /** Descriptor mode: a binding to another descriptor object of the same name. */
  method OtherDescriptorInstance(service: string, hello: string)
    requires ExtractFullServiceName(hello) == Some(service)
  {
    var started := NewBuilderForDescriptor(Some(ServiceDescriptor(service, [MethodDescriptor(hello, 1)])));
    var b := started.value;
    var added := b.AddMethod(Some(MethodDescriptor(hello, 9)), Some(ServerCallHandler(1)));
    var built := b.Build();
    assert built == Failure(NotSameInstance(hello));
  }

  method Greeter()
  {
    GreeterNames();
    BuildByName("pkg.Greeter", "pkg.Greeter/SayHello", "pkg.Greeter/Missing");
    RejectedAdditions("pkg.Greeter", "pkg.Greeter/SayHello", "pkg.Other", "pkg.Other/Op");
    UnboundDescriptorEntry("pkg.Greeter", "pkg.Greeter/SayHello", "pkg.Greeter/SayBye");
    UnlistedBinding("pkg.Greeter", "pkg.Greeter/SayHello", "pkg.Greeter/SayBye");
    OtherDescriptorInstance("pkg.Greeter", "pkg.Greeter/SayHello");
  }
}
