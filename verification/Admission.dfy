/**
 The exact-contract admission oracle of `tools/kubernetes_admission.py` as the guard of a namespace's state machine:
 CREATE on an absent name, UPDATE with the current object as the old one, DELETE on a present name. A document shape
 on which the source raises is not admitted. Documents are compared as Python compares them, where the flags are the
 numbers one and zero: every comparison is made on the documents with their flags replaced by those numbers.
 */
module Admission {
  import opened Basics

  datatype Value =
    | Null
    | Flag(flag: bool)
    | Number(number: real)
    | Text(text: string)
    | List(items: seq<Value>)
    | Fields(entries: map<string, Value>)

  predicate Truthy(v: Value) {
    match v
    case Null => false
    case Flag(b) => b
    case Number(n) => n != 0.0
    case Text(t) => t != ""
    case List(s) => s != []
    case Fields(m) => m != map[]
  }

  /** The value with its flags as numbers; two values are equal in Python exactly when these are. */
  function Norm(v: Value): Value
    decreases v
  {
    match v
    case Flag(b) => Number(if b then 1.0 else 0.0)
    case List(s) => List(seq(|s|, i requires 0 <= i < |s| => Norm(s[i])))
    case Fields(m) => Fields(map k | k in m :: Norm(m[k]))
    case _ => v
  }

  lemma {:induction false} NormTwice(v: Value)
    ensures Norm(Norm(v)) == Norm(v)
    decreases v
  {
    match v
    case List(s) =>
      forall i | 0 <= i < |s| ensures Norm(Norm(s[i])) == Norm(s[i]) { NormTwice(s[i]); }
      assert Norm(Norm(v)).items == Norm(v).items;
    case Fields(m) =>
      forall k | k in m ensures Norm(Norm(m[k])) == Norm(m[k]) { NormTwice(m[k]); }
      assert Norm(Norm(v)).entries == Norm(v).entries;
    case _ =>
  }

  /** Dictionary lookup with a default. */
  function GetOr(v: Value, key: string, otherwise: Value): Value {
    if v.Fields? && key in v.entries then v.entries[key] else otherwise
  }

  function Get(v: Value, key: string): Value {
    GetOr(v, key, Null)
  }

  predicate Has(v: Value, key: string) {
    v.Fields? && key in v.entries
  }

  lemma NormGet(v: Value, key: string)
    ensures Get(Norm(v), key) == Norm(Get(v, key)) && (Has(Norm(v), key) <==> Has(v, key))
  {
  }

  /** The elements of a set made from a value: the keys of an object, the items of a list, the characters of a text. */
  function Elements(v: Value): Option<set<Value>> {
    match v
    case Fields(m) => Some(set k | k in m :: Text(k))
    case List(s) =>
      if forall i :: 0 <= i < |s| ==> !s[i].List? && !s[i].Fields? then Some(set x | x in s) else None
    case Text(t) => Some(set c | c in t :: Text([c]))
    case _ => None
  }

  /** Membership of a text: a key of an object, an item of a list, a part of a text. */
  predicate Within(t: string, v: Value) {
    match v
    case Fields(m) => t in m
    case List(s) => Text(t) in s
    case Text(whole) => exists i :: 0 <= i <= |whole| && t <= whole[i..]
    case _ => false
  }

  function Kind(v: Value): Value { Get(v, "kind") }

  function Metadata(v: Value): Value { Get(v, "metadata") }

  function Spec(v: Value): Value { Get(v, "spec") }

  function Labels(v: Value): Value { Get(Metadata(v), "labels") }

  function Volume(v: Value): Value { GetOr(Spec(v), "volumeName", Text("")) }

  datatype Name = Name(kind: Value, namespace: Value, name: Value)

  function NameOf(v: Value): Name {
    var scope := if Kind(v) == Text("Namespace") then Null else Get(Metadata(v), "namespace");
    Name(Kind(v), scope, Get(Metadata(v), "name"))
  }

  datatype Prerequisite = Prerequisite(name: Name, labels: map<string, string>, keys: set<string>, secretType: Value)

  /** The signed inputs: profile, Kubernetes items and external prerequisites. */
  datatype Contract = Contract(
    namespace: string, deployment: string, services: set<string>, items: seq<Value>, objects: seq<Prerequisite>)

  /** `_resource_map`: the last item under a kind and name wins. */
  function Signed(items: seq<Value>, kind: Value, name: Value): Option<Value> {
    if items == [] then None
    else
      var last := Norm(items[|items| - 1]);
      if NameOf(last).kind == kind && NameOf(last).name == name then Some(last)
      else Signed(items[..|items| - 1], kind, name)
  }

  /** The first prerequisite under a name. */
  function Required(objects: seq<Prerequisite>, name: Name): Option<Prerequisite> {
    if objects == [] then None
    else if objects[0].name == name then Some(objects[0])
    else Required(objects[1..], name)
  }

  predicate HasLabels(v: Value, labels: map<string, string>) {
    forall key :: key in labels ==> Get(Labels(v), key) == Text(labels[key])
  }

  /** The first prerequisite that describes the namespace itself. */
  function NamespaceRule(objects: seq<Prerequisite>, namespace: string): Option<Prerequisite> {
    if objects == [] then None
    else if objects[0].name.kind == Text("Namespace") && objects[0].name.name == Text(namespace) then Some(objects[0])
    else NamespaceRule(objects[1..], namespace)
  }

  predicate NamespaceFits(c: Contract, v: Value) {
    var rule := NamespaceRule(c.objects, c.namespace);
    Get(Metadata(v), "name") == Text(c.namespace) && rule.Some? && HasLabels(v, rule.value.labels)
  }

  /** The signed pod specification for the service a pod claims to be. */
  function Template(c: Contract, v: Value): Option<Value> {
    var service := Get(Labels(v), "app.kubernetes.io/component");
    if !service.Text? || service.text !in c.services
       || Get(Labels(v), "app.kubernetes.io/instance") != Text(c.deployment)
       || Get(Labels(v), "app.kubernetes.io/part-of") != Text("xiaozhi-agent-platform")
    then None
    else
      var controller := if service.text == "generationcoordinator" then "StatefulSet" else "Deployment";
      match Signed(c.items, Text(controller), Text(c.deployment + "-" + service.text))
      case None => None
      case Some(item) =>
        var template := Get(Spec(item), "template");
        if Has(template, "spec") then Some(Get(template, "spec")) else None
  }

  predicate PodFits(c: Contract, v: Value) {
    var t := Template(c, v);
    t.Some? && Spec(v) == t.value
  }

  const HELD := {Text("ConfigMap"), Text("Secret")}

  const CLAIM := Text("PersistentVolumeClaim")

  const STABLE := ["accessModes", "resources", "storageClassName", "volumeMode", "selector", "dataSource",
                   "dataSourceRef"]

  predicate SameStable(v: Value, old_: Value) {
    forall i :: 0 <= i < |STABLE| ==> Get(Spec(v), STABLE[i]) == Get(Spec(old_), STABLE[i])
  }

  datatype Operation = Create | Update(was: Value) | Delete | Other

  predicate HeldKeys(v: Value, p: Prerequisite) {
    Elements(GetOr(v, "data", Fields(map[]))) == Some(Names(p))
  }

  function Names(p: Prerequisite): set<Value> {
    set k | k in p.keys :: Text(k)
  }

  predicate HeldCreate(v: Value, p: Prerequisite, locked: bool) {
    locked && GetOr(v, "type", Text("Opaque")) == Norm(p.secretType) && HeldKeys(v, p)
  }

  predicate ClaimCreate(v: Value) {
    && Truthy(Get(Spec(v), "accessModes"))
    && Within("storage", Get(Get(Spec(v), "resources"), "requests"))
    && !Has(Spec(v), "dataSource") && !Has(Spec(v), "dataSourceRef") && !Has(Spec(v), "volumeName")
  }

  predicate ClaimUpdate(v: Value, was: Value) {
    && GetOr(v, "spec", Fields(map[])).Fields? && GetOr(was, "spec", Fields(map[])).Fields?
    && SameStable(v, was)
    && (Volume(v) == Volume(was) || (!Truthy(Volume(was)) && Truthy(Volume(v))))
  }

  predicate PrerequisiteAllows(p: Prerequisite, op: Operation, v: Value, locked: bool) {
    match op
    case Create => if Kind(v) in HELD then HeldCreate(v, p, locked) else Kind(v) == CLAIM && ClaimCreate(v)
    case Update(was) => if Kind(v) in HELD then Get(v, "data") == Get(was, "data") else ClaimUpdate(v, was)
    case _ => false
  }

  /** The oracle on documents without flags; `locked` says whether the document's immutable field is the flag itself. */
  predicate Judges(c: Contract, op: Operation, v: Value, locked: bool) {
    var n := NameOf(v);
    if op.Other? then false
    else if n.kind == Text("Namespace") then !op.Delete? && NamespaceFits(c, v)
    else if n.namespace != Text(c.namespace) then false
    else if n.kind == Text("Pod") then
      op.Delete? || ((op.Update? ==> Spec(v) == Spec(op.was)) && PodFits(c, v))
    else
      match Signed(c.items, n.kind, n.name)
      case Some(signed) =>
        (match op
         case Create => v == signed
         case Update(was) => Spec(v) == Spec(was)
         case _ => false)
      case None =>
        match Required(c.objects, n)
        case None => false
        case Some(p) => PrerequisiteAllows(p, op, v, locked)
  }

  /** `semantic_allows`. */
  predicate Allows(c: Contract, op: Operation, v: Value) {
    Judges(c, if op.Update? then Update(Norm(op.was)) else op, Norm(v), Get(v, "immutable") == Flag(true))
  }

  function Address(v: Value): Name {
    NameOf(Norm(v))
  }

  type State = map<Name, Value>

  datatype Request = CreateRequest(v: Value) | UpdateRequest(v: Value) | DeleteRequest(v: Value)

  /** One request: conflicts and denials leave the cluster as it is. */
  function Step(c: Contract, s: State, q: Request): State {
    var n := Address(q.v);
    match q
    case CreateRequest(v) => if n !in s && Allows(c, Create, v) then s[n := v] else s
    case UpdateRequest(v) => if n in s && Allows(c, Update(s[n]), v) then s[n := v] else s
    case DeleteRequest(v) => if n in s && Allows(c, Delete, v) then s - {n} else s
  }

  function Run(c: Contract, s: State, requests: seq<Request>): State
    decreases |requests|
  {
    if requests == [] then s else Run(c, Step(c, s, requests[0]), requests[1..])
  }

  // ----- What an object can look like -----

  predicate HeldFits(v: Value, p: Prerequisite) {
    var data := Get(v, "data");
    Elements(data) == Some(Names(p)) || (data.Null? && p.keys == {})
  }

  predicate ClaimFits(v: Value) {
    && Truthy(Get(Spec(v), "accessModes"))
    && Within("storage", Get(Get(Spec(v), "resources"), "requests"))
    && Get(Spec(v), "dataSource") == Null && Get(Spec(v), "dataSourceRef") == Null
    && (Volume(v) == Text("") || Truthy(Volume(v)))
  }

  /** The exact shape of an object that requests can bring about, with its flags as numbers. */
  predicate Fits(c: Contract, v: Value) {
    var n := NameOf(v);
    if n.kind == Text("Namespace") then NamespaceFits(c, v)
    else
      && n.namespace == Text(c.namespace)
      && if n.kind == Text("Pod") then PodFits(c, v)
         else
           match Signed(c.items, n.kind, n.name)
           case Some(signed) => Spec(v) == Spec(signed)
           case None =>
             match Required(c.objects, n)
             case None => false
             case Some(p) => if n.kind in HELD then HeldFits(v, p) else n.kind == CLAIM && ClaimFits(v)
  }

  ghost predicate Inv(c: Contract, s: State) {
    forall n :: n in s ==> Address(s[n]) == n && Fits(c, Norm(s[n]))
  }

  lemma StableFields(v: Value, was: Value)
    requires SameStable(v, was)
    ensures Get(Spec(v), "accessModes") == Get(Spec(was), "accessModes")
    ensures Get(Spec(v), "resources") == Get(Spec(was), "resources")
    ensures Get(Spec(v), "dataSource") == Get(Spec(was), "dataSource")
    ensures Get(Spec(v), "dataSourceRef") == Get(Spec(was), "dataSourceRef")
  {
    assert STABLE[0] == "accessModes" && STABLE[1] == "resources";
    assert STABLE[5] == "dataSource" && STABLE[6] == "dataSourceRef";
    assert Get(Spec(v), STABLE[0]) == Get(Spec(was), STABLE[0]) && Get(Spec(v), STABLE[1]) == Get(Spec(was), STABLE[1]);
    assert Get(Spec(v), STABLE[5]) == Get(Spec(was), STABLE[5]) && Get(Spec(v), STABLE[6]) == Get(Spec(was), STABLE[6]);
  }

  lemma CreatedFits(c: Contract, v: Value, locked: bool)
    requires Judges(c, Create, v, locked)
    ensures Fits(c, v)
  {
    var n := NameOf(v);
    if n.kind in HELD && Signed(c.items, n.kind, n.name).None? { DataCreated(v, Required(c.objects, n).value); }
  }

  lemma NoNames(p: Prerequisite)
    ensures Names(p) == {} <==> p.keys == {}
    ensures Elements(Fields(map[])) == Some({})
  {
    var none: map<string, Value> := map[];
    assert (set k | k in none :: Text(k)) == {};
    if p.keys != {} {
      var k :| k in p.keys;
      assert Text(k) in Names(p);
    }
  }

  lemma DataCreated(v: Value, p: Prerequisite)
    requires HeldKeys(v, p)
    ensures HeldFits(v, p)
  {
    NoNames(p);
  }

  lemma UpdatedFits(c: Contract, v: Value, was: Value, locked: bool)
    requires NameOf(v) == NameOf(was) && Fits(c, was) && Judges(c, Update(was), v, locked)
    ensures Fits(c, v)
  {
    var n := NameOf(v);
    if n.kind == CLAIM && Signed(c.items, n.kind, n.name).None? { StableFields(v, was); }
  }

  lemma StepKeeps(c: Contract, s: State, q: Request)
    requires Inv(c, s)
    ensures Inv(c, Step(c, s, q))
  {
    match q
    case CreateRequest(v) => if Allows(c, Create, v) { CreatedFits(c, Norm(v), Get(v, "immutable") == Flag(true)); }
    case UpdateRequest(v) =>
      if Address(v) in s && Allows(c, Update(s[Address(v)]), v) {
        UpdatedFits(c, Norm(v), Norm(s[Address(v)]), Get(v, "immutable") == Flag(true));
      }
    case DeleteRequest(v) =>
  }

  lemma {:induction false} RunKeeps(c: Contract, s: State, requests: seq<Request>)
    requires Inv(c, s)
    ensures Inv(c, Run(c, s, requests))
    decreases |requests|
  {
    if requests != [] {
      StepKeeps(c, s, requests[0]);
      RunKeeps(c, Step(c, s, requests[0]), requests[1..]);
    }
  }
}
