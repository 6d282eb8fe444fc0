# Service definition registry builder

A Dafny model of the gRPC-style service registry of the Ballerina gRPC
connector: the class `ServerServiceDefinition` and its `Builder`. A builder
collects method bindings (a method descriptor paired with a call handler),
keyed by fully-qualified method name `<service>/<method>`. It checks each
binding as it arrives. `build` then checks the bindings against a service
descriptor and freezes a copy of them into an immutable `ServerServiceDefinition`.
The descriptor is either given up front (descriptor mode) or derived from the
bindings (name mode). The frozen definition answers lookups by name.

Layout:

- `wrappers.dfy` (module `Wrappers`) holds `Option` (Java `null`), `Result` (a value or a thrown
  exception) and `Outcome` (a `void` method that may throw).
- `descriptors.dfy` (module `Descriptors`) holds the value types: method descriptors with an identity
  token, service descriptors, handlers and bindings. It also holds the naming convention:
  `ExtractFullServiceName`, `GenerateFullMethodName` and the facts connecting them.
- `service_definition.dfy` (module `ServiceDefinition`) holds the error type and its messages, the
  frozen definition and its accessors, and the bijection predicate `Consistent`. It also holds the
  walk over the descriptor's methods (`MatchEntries`) with the lemmas characterising it.
- `builder.dfy` (module `ServiceDefinitionBuilder`) holds the `Builder` class. Its `methods` map is
  updated in place by `AddMethod`/`AddDefinition`. `Build` runs the name-mode derivation loop and
  then `CheckAndFreeze`, which is the copy-and-remove loop of `build`. The module also holds the two
  factory methods with their null checks.
- `scenarios.dfy` (module `Scenarios`) holds client methods that derive, from the contracts alone,
  the behaviour of a greeter service in both modes.

Modelling decisions:

- Java compares method descriptors by reference (line 184). Here a `MethodDescriptor` carries an
  `instance` token, unique per descriptor object. Datatype equality then coincides with reference
  identity.
- `MethodDescriptor.java` is not part of this model. `ExtractFullServiceName` is this model's own
  definition of the function called at line 146. It follows the naming convention: it returns the
  text before the FIRST `/`, and `None` (Java `null`) when there is no `/`. With no `/`, the
  comparison at line 146 fails, so the prefix error is raised. The class is adapted from grpc-java,
  whose version splits at the LAST `/`; the two agree only on names with at most one `/` (see
  "## Left out").
- `ServiceDescriptor.java` is not part of this model. We assume line 174 derives a descriptor whose
  name is the builder's service name and whose method list is exactly the collected descriptors. The
  validation that `ServiceDescriptor` itself may run is not modelled. The derived list satisfies the
  prefix and uniqueness rules anyway, by the builder's invariant `RegisteredUnder`.
- HashMap iteration order is unspecified. So both the derivation loop (lines 169-173) and the choice of
  leftover binding reported at line 193 pick elements by nondeterministic choice (`:|`). The
  contracts hold for every order. The derivation loop walks the keys and takes each key's binding.
  Under the builder's invariant this visits exactly the map's values.
- `ServerCallHandler` is opaque: only its identity is kept.
- `Build` has no `modifies` clause, so the verifier guarantees that it leaves the builder untouched
  (the source checks a copy, line 176). The frozen definition is a datatype value holding its own copy
  of the map (line 61). Later `AddMethod` calls therefore cannot change its lookups; `Scenarios.BuildByName` derives this.

Behaviour that follows the code as written:

- `builder(serviceName)` rejects only a null name. An empty name is accepted.
- In name mode, the derived descriptor lists the bindings in the map's order, not in the order they
  were added.
- The prefix-mismatch message names the expected service and the offending full method name. The
  offending service name appears only as part of the full method name (`PrefixNamesActualService`);
  it is not printed on its own.
- The descriptor-mode constructor `Builder(ServiceDescriptor)` (lines 109-115) is private, and nothing
  in the file calls it: there is no public `builder(ServiceDescriptor)`. `NewBuilderForDescriptor`
  models that constructor with its null check, as an entry point the file itself does not expose.
- A name-mode builder with no methods builds an empty service. The source allows this.

## Model

| member | source | states |
|---|---|---|
| ServiceDefinitionBuilder.NewBuilder | ballerina-grpc/src/main/java/org/ballerinalang/net/grpc/ServerServiceDefinition.java:47-49 | fails with `ServiceNameNull` exactly when the name is null; otherwise a fresh builder with that name, no descriptor and no bindings |
| ServiceDefinitionBuilder.Builder.ForServiceName | ballerina-grpc/src/main/java/org/ballerinalang/net/grpc/ServerServiceDefinition.java:101-107 | name mode: the given name, no descriptor, an empty map, and the builder invariant |
| ServiceDefinitionBuilder.NewBuilderForDescriptor | ballerina-grpc/src/main/java/org/ballerinalang/net/grpc/ServerServiceDefinition.java:109-112 | fails with `ServiceDescriptorNull` exactly when the descriptor is null; otherwise a fresh builder holding it |
| ServiceDefinitionBuilder.Builder.ForServiceDescriptor | ballerina-grpc/src/main/java/org/ballerinalang/net/grpc/ServerServiceDefinition.java:113-115 | descriptor mode: the service name is the descriptor's name, an empty map |
| ServiceDefinitionBuilder.Builder.AddMethod | ballerina-grpc/src/main/java/org/ballerinalang/net/grpc/ServerServiceDefinition.java:123-133 | a null method or handler fails with the one "Service Descriptor cannot be null" error and leaves the map unchanged; otherwise the outcome and new map are those of `Register` for the new binding |
| ServiceDefinitionBuilder.Builder.AddDefinition | ballerina-grpc/src/main/java/org/ballerinalang/net/grpc/ServerServiceDefinition.java:143-157 | the outcome and the new map are those of `Register`, and the builder invariant is kept |
| ServiceDefinitionBuilder.Register | ballerina-grpc/src/main/java/org/ballerinalang/net/grpc/ServerServiceDefinition.java:145-156 | succeeds iff the name's service part is the builder's and the name is unbound; a prefix mismatch reports expected service and full name and takes precedence over the duplicate error; failures leave the map unchanged; success adds exactly that name with that binding, grows the map by one, keeps every other entry, and preserves `RegisteredUnder` |
| ServiceDefinitionBuilder.Builder.Build | ballerina-grpc/src/main/java/org/ballerinalang/net/grpc/ServerServiceDefinition.java:165-196 | in name mode always succeeds, with a descriptor named after the service that is in bijection with the bindings; in descriptor mode succeeds iff descriptor and bindings are in bijection, and otherwise reports the walk's error or an unlisted bound name; on success holds exactly the builder's bindings, and lookups return the binding or `None` |
| ServiceDefinitionBuilder.CheckAndFreeze | ballerina-grpc/src/main/java/org/ballerinalang/net/grpc/ServerServiceDefinition.java:176-195 | the copy-and-remove loop: success iff `Consistent`, failures are the walk's error or `NoDescriptorEntry` of a bound name the descriptor does not list, all as `IllegalStateException`s |
| ServiceDefinitionBuilder.ForeignEntryNeverConsistent | ballerina-grpc/src/main/java/org/ballerinalang/net/grpc/ServerServiceDefinition.java:177-183 | under the `addMethod` invariant, a descriptor entry of another service can never be bound, so the check fails |
| ServiceDefinition.MatchEntriesSucceeds | ballerina-grpc/src/main/java/org/ballerinalang/net/grpc/ServerServiceDefinition.java:177-189 | the walk succeeds iff the descriptor names are distinct and each entry is bound to that very descriptor object; it then leaves the bindings of all other names |
| ServiceDefinition.MatchFailureLocated | ballerina-grpc/src/main/java/org/ballerinalang/net/grpc/ServerServiceDefinition.java:177-188 | a failing walk fails at the first entry that is unbound in what is left (never bound, or consumed by an earlier entry of the same name), or that is bound to another descriptor object; all earlier entries matched |
| ServiceDefinition.DuplicateEntryFails | ballerina-grpc/src/main/java/org/ballerinalang/net/grpc/ServerServiceDefinition.java:178-183 | a descriptor listing the same name twice always fails the walk |
| ServiceDefinition.CheckPassesIffConsistent | ballerina-grpc/src/main/java/org/ballerinalang/net/grpc/ServerServiceDefinition.java:190-195 | the walk consumes every binding iff the map's key set equals the descriptor's names, each listed once and bound to itself |
| ServiceDefinition.NewServerServiceDefinition | ballerina-grpc/src/main/java/org/ballerinalang/net/grpc/ServerServiceDefinition.java:54-62 | fails iff the descriptor is null; otherwise keeps the descriptor and a copy of the bindings with the same lookups |
| ServiceDefinition.LookupAgreesWithDescriptor | ballerina-grpc/src/main/java/org/ballerinalang/net/grpc/ServerServiceDefinition.java:87-89 | in a built definition a name resolves iff the descriptor lists it, to the binding of that very descriptor entry |
| ServiceDefinition.MethodsMatchDescriptor | ballerina-grpc/src/main/java/org/ballerinalang/net/grpc/ServerServiceDefinition.java:78-80 | a built definition has one bound definition per descriptor entry, and their descriptors are exactly the descriptor's methods |
| ServiceDefinition.MessageNamesOffender | ballerina-grpc/src/main/java/org/ballerinalang/net/grpc/ServerServiceDefinition.java:147-153 | each error message names the method involved; the prefix message names both the expected service and the full method name |
| ServiceDefinition.MatchEntries | ballerina-grpc/src/main/java/org/ballerinalang/net/grpc/ServerServiceDefinition.java:177-189 | the walk over the descriptor's methods in order: success leaves a sub-map of the bindings, each remaining entry unchanged; failure is always one of the two errors of lines 181 and 185 |
| ServiceDefinition.ServerServiceDefinition.GetServiceDescriptor | ballerina-grpc/src/main/java/org/ballerinalang/net/grpc/ServerServiceDefinition.java:69-71 | in a built definition, the descriptor lists each bound name exactly once and no other name |
| ServiceDefinition.ServerServiceDefinition.GetMethods | ballerina-grpc/src/main/java/org/ballerinalang/net/grpc/ServerServiceDefinition.java:78-80 | every binding is in the collection, and in a built definition there are exactly as many as descriptor entries |
| ServiceDefinition.ServerServiceDefinition.GetMethod | ballerina-grpc/src/main/java/org/ballerinalang/net/grpc/ServerServiceDefinition.java:87-89 | a lookup finds a binding exactly when the name is bound (otherwise `None`, Java `null`), and in a built definition the binding found is for that very name |
| ServiceDefinition.GrpcError.Message | ballerina-grpc/src/main/java/org/ballerinalang/net/grpc/ServerServiceDefinition.java:147-153 | the exception texts of lines 58, 103, 111, 127-130, 147-153, 181-187 and 191-193; `MessageNamesOffender` and `PrefixNamesActualService` prove which names each one contains |
| ServiceDefinition.PrefixNamesActualService | ballerina-grpc/src/main/java/org/ballerinalang/net/grpc/ServerServiceDefinition.java:146-149 | the prefix-mismatch message contains the service part of the offending full method name |
| Descriptors.ExtractFullServiceName | ballerina-grpc/src/main/java/org/ballerinalang/net/grpc/ServerServiceDefinition.java:146 | the service part of a full method name, split at the first '/', or `None` without a '/'; `ExtractSplitsAtFirstSlash` states what it returns |
| Descriptors.ExtractSplitsAtFirstSlash | ballerina-grpc/src/main/java/org/ballerinalang/net/grpc/ServerServiceDefinition.java:146 | a service part exists iff the name has a '/'; it contains no '/', and it followed by '/' begins the name |
| Descriptors.ExtractGenerated | ballerina-grpc/src/main/java/org/ballerinalang/net/grpc/ServerServiceDefinition.java:146 | the service part of `<service>/<method>` is `<service>` when the service name has no '/' |
| Descriptors.ExtractedIsPrefix | ballerina-grpc/src/main/java/org/ballerinalang/net/grpc/ServerServiceDefinition.java:146 | a full name whose service part is `s` is `s`, then '/', then the rest |

## Left out

- The call handlers and the per-call listener state machine (unary and streaming listeners) are not part of this core. Handlers are opaque tokens.
- Marshallers and the call shape of a method descriptor play no part in the registry and are not modelled.
- ExtractFullServiceName: the real `MethodDescriptor.extractFullServiceName` is not part of this model. The model splits at the first `/`; a last-`/` split, as in grpc-java, gives a different service name for full names with two or more `/`. For example, for `a/b/c` the model gives `a`, so a builder for `a` accepts it and a builder for `a/b` rejects it; a last-`/` split gives `a/b` and the reverse.
- The `ServiceDescriptor` builder used at line 174 is not part of this model; the assumption about it is described above.
- The package-private `addMethod(def)` with a null `def` throws a `NullPointerException` in Java. `AddDefinition` takes a binding that is present.
- `getMethod(null)` is not modelled: the name is a string.
- Concurrency and the unmodifiable-map wrapper are not modelled: the frozen definition is an immutable value.
- The Java exception classes appear only as the tag `IsIllegalState`.
- The "single use" of a builder is not modelled, because the source does not enforce it. A builder may be built again, and may also get more methods after a build.
