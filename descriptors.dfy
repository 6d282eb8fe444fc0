/** The value types a service definition is built from: method descriptors,
    service descriptors, call handlers and method bindings, together with the
    fully-qualified method naming convention `<service>/<method>`. */
module Descriptors {
  import opened Wrappers

  /** Descriptor of one RPC method. Java compares these by reference
      (`removed.getMethodDescriptor() != descriptorMethod`), so every
      descriptor object carries an `instance` token: two descriptors are the
      same object exactly when they are equal as values. Marshallers and the
      call shape play no part in the registry and are not modelled. */
  datatype MethodDescriptor = MethodDescriptor(fullMethodName: string, instance: nat)

  /** A service name with its ordered list of method descriptors. */
  datatype ServiceDescriptor = ServiceDescriptor(name: string, methods: seq<MethodDescriptor>)

  /** The handler that starts calls for a method; only its identity matters here. */
  datatype ServerCallHandler = ServerCallHandler(instance: nat)

  /** One method descriptor bound to one call handler. */
  datatype ServerMethodDefinition = ServerMethodDefinition(methodDescriptor: MethodDescriptor, handler: ServerCallHandler)

  /** Position of the first '/' in `s`. */
  function SlashIndex(s: string): (k: nat)
    requires '/' in s
    ensures k < |s| && s[k] == '/'
    ensures '/' !in s[..k]
  {
    if s[0] == '/' then 0
    else
      assert '/' in s[1..] by { var j :| 0 <= j < |s| && s[j] == '/'; assert s[1..][j - 1] == '/'; }
      var k := 1 + SlashIndex(s[1..]);
      assert s[..k] == [s[0]] + s[1..][..k - 1];
      k
  }

  /** The service part of a fully-qualified method name: everything before
      the first '/', or no name at all (Java `null`) when there is no '/'. */
  function ExtractFullServiceName(fullMethodName: string): Option<string>
  {
    if '/' in fullMethodName then Some(fullMethodName[..SlashIndex(fullMethodName)]) else None
  }

  /** The service part exists exactly when the name has a '/', and it is
      the '/'-free text that, followed by '/', begins the name: the split is
      at the first '/'. */
  lemma ExtractSplitsAtFirstSlash(fullMethodName: string)
    ensures ExtractFullServiceName(fullMethodName).Some? <==> '/' in fullMethodName
    ensures ExtractFullServiceName(fullMethodName).Some? ==>
              var service := ExtractFullServiceName(fullMethodName).value;
              '/' !in service && |service| < |fullMethodName| && fullMethodName[..|service| + 1] == service + "/"
  {
    if '/' in fullMethodName {
      var k := SlashIndex(fullMethodName);
      assert fullMethodName[..k + 1] == fullMethodName[..k] + "/";
    }
  }

  /** The fully-qualified name of method `methodName` of service `serviceName`. */
  function GenerateFullMethodName(serviceName: string, methodName: string): string
  {
    serviceName + "/" + methodName
  }

  /** Extracting the service name undoes generating a full method name,
      provided the service name has no '/' of its own. */
  lemma ExtractGenerated(serviceName: string, methodName: string)
    requires '/' !in serviceName
    ensures ExtractFullServiceName(GenerateFullMethodName(serviceName, methodName)) == Some(serviceName)
  {
    var full := GenerateFullMethodName(serviceName, methodName);
    assert full[|serviceName|] == '/';
    var k := SlashIndex(full);
    assert full[..k] == serviceName;
  }

  /** Conversely, a full method name whose service part is `serviceName` is
      `serviceName` followed by '/' and the rest of the name. */
  lemma ExtractedIsPrefix(fullMethodName: string, serviceName: string)
    requires ExtractFullServiceName(fullMethodName) == Some(serviceName)
    ensures '/' !in serviceName
    ensures fullMethodName == GenerateFullMethodName(serviceName, fullMethodName[|serviceName| + 1..])
  {
    var k := SlashIndex(fullMethodName);
    assert fullMethodName == fullMethodName[..k] + [fullMethodName[k]] + fullMethodName[k + 1..];
  }

  /** No two entries of `ms` share a full method name. */
  predicate DistinctNames(ms: seq<MethodDescriptor>)
  {
    forall i, j :: 0 <= i < j < |ms| ==> ms[i].fullMethodName != ms[j].fullMethodName
  }

  /** The full method names of `ms`. */
  function NameSet(ms: seq<MethodDescriptor>): set<string>
  {
    set i | 0 <= i < |ms| :: ms[i].fullMethodName
  }

  /** The names of a non-empty list are its head's name and its tail's names. */
  lemma NameSetCons(ms: seq<MethodDescriptor>)
    requires ms != []
    ensures NameSet(ms) == {ms[0].fullMethodName} + NameSet(ms[1..])
  {
    var rest := ms[1..];
    forall x | x in NameSet(ms) ensures x in {ms[0].fullMethodName} + NameSet(rest) {
      var i :| 0 <= i < |ms| && ms[i].fullMethodName == x;
      if i > 0 { assert rest[i - 1].fullMethodName == x; }
    }
    forall x | x in NameSet(rest) ensures x in NameSet(ms) {
      var i :| 0 <= i < |rest| && rest[i].fullMethodName == x;
      assert ms[i + 1].fullMethodName == x;
    }
  }

  lemma NameSetSingleton(m: MethodDescriptor)
    ensures NameSet([m]) == {m.fullMethodName}
  {
    assert [m][0].fullMethodName in NameSet([m]);
  }
}
