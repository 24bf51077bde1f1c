/**
 What the admission oracle admits, on the documents themselves: Python's equality, the last signed item and the first
 prerequisite under a name, and the fields that each kind of object must have or keep.
 */
module AdmissionMeaning {
  import opened Basics
  import opened Admission

  // ----- Python's equality -----

  predicate Equals(v: Value, n: real) {
    v == Number(n) || (v == Flag(true) && n == 1.0) || (v == Flag(false) && n == 0.0)
  }

  /** Two documents are equal in Python. */
  predicate Same(a: Value, b: Value)
    decreases a
  {
    match a
    case Flag(x) => if x then Equals(b, 1.0) else Equals(b, 0.0)
    case Number(n) => Equals(b, n)
    case List(s) => b.List? && |s| == |b.items| && forall i :: 0 <= i < |s| ==> Same(s[i], b.items[i])
    case Fields(m) => b.Fields? && m.Keys == b.entries.Keys && forall k :: k in m ==> Same(m[k], b.entries[k])
    case _ => a == b
  }

  lemma ListsEqual(s: seq<Value>, t: seq<Value>)
    ensures Norm(List(s)) == Norm(List(t)) <==>
            |s| == |t| && forall i :: 0 <= i < |s| ==> Norm(s[i]) == Norm(t[i])
  {
    var u, v := Norm(List(s)).items, Norm(List(t)).items;
    assert |u| == |s| && |v| == |t|;
    assert forall i :: 0 <= i < |s| ==> u[i] == Norm(s[i]);
    assert forall i :: 0 <= i < |t| ==> v[i] == Norm(t[i]);
  }

  lemma FieldsEqual(m: map<string, Value>, n: map<string, Value>)
    ensures Norm(Fields(m)) == Norm(Fields(n)) <==>
            m.Keys == n.Keys && forall k :: k in m ==> k in n && Norm(m[k]) == Norm(n[k])
  {
    var u, v := Norm(Fields(m)).entries, Norm(Fields(n)).entries;
    assert u.Keys == m.Keys && v.Keys == n.Keys;
    assert forall k :: k in m ==> u[k] == Norm(m[k]);
    assert forall k :: k in n ==> v[k] == Norm(n[k]);
    if m.Keys == n.Keys && forall k :: k in m ==> k in n && Norm(m[k]) == Norm(n[k]) { assert u == v; }
  }

  /** Replacing flags by numbers decides that equality. */
  lemma {:induction false} SameExactly(a: Value, b: Value)
    ensures Norm(a) == Norm(b) <==> Same(a, b)
    decreases a
  {
    match a
    case List(s) =>
      if b.List? {
        ListsEqual(s, b.items);
        forall i | 0 <= i < |s| && i < |b.items| ensures Norm(s[i]) == Norm(b.items[i]) <==> Same(s[i], b.items[i]) {
          SameExactly(s[i], b.items[i]);
        }
      }
    case Fields(m) =>
      if b.Fields? {
        FieldsEqual(m, b.entries);
        forall k | k in m && k in b.entries ensures Norm(m[k]) == Norm(b.entries[k]) <==> Same(m[k], b.entries[k]) {
          SameExactly(m[k], b.entries[k]);
        }
      }
    case _ =>
  }

  // ----- What is admitted -----

  function At(v: Value, outer: string, inner: string): Value {
    Get(Get(v, outer), inner)
  }

  /** Element `k` is the last one that fits. */
  ghost predicate Last<T>(s: seq<T>, fits: T -> bool, k: nat) {
    k < |s| && fits(s[k]) && forall j :: k < j < |s| ==> !fits(s[j])
  }

  /** Element `k` is the first one that fits. */
  ghost predicate First<T>(s: seq<T>, fits: T -> bool, k: nat) {
    k < |s| && fits(s[k]) && forall j :: 0 <= j < k ==> !fits(s[j])
  }

  /** Items with the kind and name of `v`. */
  function Items(v: Value): Value -> bool {
    (item: Value) => SameItem(item, v)
  }

  /** Prerequisites for the kind, namespace and name of `v`. */
  function Objects(v: Value): Prerequisite -> bool {
    (p: Prerequisite) => p.name == Address(v)
  }

  /** Prerequisites that describe the namespace. */
  function Rules(namespace: string): Prerequisite -> bool {
    (p: Prerequisite) => Describes(p, namespace)
  }

  predicate SameItem(item: Value, v: Value) {
    Same(Get(item, "kind"), Get(v, "kind")) && Same(At(item, "metadata", "name"), At(v, "metadata", "name"))
  }

  predicate Describes(p: Prerequisite, namespace: string) {
    p.name.kind == Text("Namespace") && p.name.name == Text(namespace)
  }

  /** The item that a pod of a service must match: a stateful set for the coordinator, else a deployment. */
  function Controller(c: Contract, service: string): Value {
    Fields(map["kind" := Text(if service == "generationcoordinator" then "StatefulSet" else "Deployment"),
               "metadata" := Fields(map["name" := Text(c.deployment + "-" + service)])])
  }

  /** The labels of a pod that claims to be a service of the deployment. */
  predicate Claims(c: Contract, v: Value, service: string) {
    var labels := At(v, "metadata", "labels");
    && service in c.services && Get(labels, "app.kubernetes.io/component") == Text(service)
    && Get(labels, "app.kubernetes.io/instance") == Text(c.deployment)
    && Get(labels, "app.kubernetes.io/part-of") == Text("xiaozhi-agent-platform")
  }

  /** The pod specification of a signed item. */
  function PodSpec(item: Value): Option<Value> {
    if Has(At(item, "spec", "template"), "spec") then Some(Get(At(item, "spec", "template"), "spec")) else None
  }

  /** Signed item `k` is the controller of the service, and its pods look like this one. */
  ghost predicate PodMatches(c: Contract, v: Value, service: string, k: nat) {
    && Claims(c, v, service) && Last(c.items, Items(Controller(c, service)), k)
    && PodSpec(c.items[k]).Some? && Same(Get(v, "spec"), PodSpec(c.items[k]).value)
  }

  /** The keys of the data are the required ones. */
  predicate Holding(data: Value, keys: set<string>) {
    match data
    case Fields(m) => m.Keys == keys
    case List(s) => (forall x :: x in s ==> x.Text? && x.text in keys) && forall k :: k in keys ==> Text(k) in s
    case Text(t) => (forall ch :: ch in t ==> [ch] in keys) && forall k :: k in keys ==> |k| == 1 && k[0] in t
    case _ => false
  }

  predicate Holder(v: Value) {
    Get(v, "kind") == Text("ConfigMap") || Get(v, "kind") == Text("Secret")
  }

  /** A held object is created locked, of the required type, and with the required keys. */
  predicate HolderCreated(v: Value, p: Prerequisite) {
    && Get(v, "immutable") == Flag(true)
    && (if Has(v, "type") then Same(Get(v, "type"), p.secretType) else p.secretType == Text("Opaque"))
    && (if Has(v, "data") then Holding(Get(v, "data"), p.keys) else p.keys == {})
  }

  /** A key of an object, an item of a list, or a part of a text. */
  ghost predicate Mentions(v: Value, t: string) {
    match v
    case Fields(m) => t in m
    case List(s) => Text(t) in s
    case Text(whole) => exists before, after :: whole == before + t + after
    case _ => false
  }

  ghost predicate ClaimCreated(v: Value) {
    && Get(v, "kind") == Text("PersistentVolumeClaim") && Truthy(At(v, "spec", "accessModes"))
    && Mentions(Get(At(v, "spec", "resources"), "requests"), "storage")
    && forall key :: key in ["dataSource", "dataSourceRef", "volumeName"] ==> !Has(Get(v, "spec"), key)
  }

  predicate NoVolume(v: Value) {
    !Has(Get(v, "spec"), "volumeName") || !Truthy(At(v, "spec", "volumeName"))
  }

  /** An updated claim keeps seven fields, and its volume unless it had none. */
  predicate ClaimUpdated(v: Value, was: Value) {
    && (Has(v, "spec") ==> Get(v, "spec").Fields?) && (Has(was, "spec") ==> Get(was, "spec").Fields?)
    && (forall key :: key in ["accessModes", "resources", "storageClassName", "volumeMode", "selector", "dataSource",
                              "dataSourceRef"] ==>
          Same(At(v, "spec", key), At(was, "spec", key)))
    && (Same(Volume(v), Volume(was)) || (NoVolume(was) && !NoVolume(v)))
  }

  ghost predicate ObjectAllowed(op: Operation, v: Value, p: Prerequisite) {
    match op
    case Create => if Holder(v) then HolderCreated(v, p) else ClaimCreated(v)
    case Update(was) => if Holder(v) then Same(Get(v, "data"), Get(was, "data")) else ClaimUpdated(v, was)
    case _ => false
  }

  predicate ItemAllowed(op: Operation, v: Value, signed: Value) {
    match op
    case Create => Same(v, signed)
    case Update(was) => Same(Get(v, "spec"), Get(was, "spec"))
    case _ => false
  }

  ghost predicate PodAllowed(c: Contract, op: Operation, v: Value) {
    || op.Delete?
    || ((op.Update? ==> Same(Get(v, "spec"), Get(op.was, "spec"))) &&
        exists service, k: nat :: PodMatches(c, v, service, k))
  }

  ghost predicate NamespaceAllowed(c: Contract, op: Operation, v: Value) {
    && !op.Delete? && At(v, "metadata", "name") == Text(c.namespace)
    && exists k: nat :: First(c.objects, Rules(c.namespace), k) &&
         forall key :: key in c.objects[k].labels ==>
           Get(At(v, "metadata", "labels"), key) == Text(c.objects[k].labels[key])
  }

  /** Other objects: a signed item, else a prerequisite. */
  ghost predicate OthersAllowed(c: Contract, op: Operation, v: Value) {
    || (exists k: nat :: Last(c.items, Items(v), k) && ItemAllowed(op, v, c.items[k]))
    || ((forall k: nat :: !Last(c.items, Items(v), k)) &&
        exists k: nat :: First(c.objects, Objects(v), k) && ObjectAllowed(op, v, c.objects[k]))
  }

  /** What the oracle admits. */
  ghost predicate Permits(c: Contract, op: Operation, v: Value) {
    && !op.Other?
    && if Get(v, "kind") == Text("Namespace") then NamespaceAllowed(c, op, v)
       else
         && At(v, "metadata", "namespace") == Text(c.namespace)
         && if Get(v, "kind") == Text("Pod") then PodAllowed(c, op, v)
            else
              OthersAllowed(c, op, v)
  }

  // ----- The oracle admits exactly that -----

  lemma NormText(v: Value, t: string)
    ensures Norm(v) == Text(t) <==> v == Text(t)
  {
  }

  lemma NormAt(v: Value, outer: string, inner: string)
    ensures At(Norm(v), outer, inner) == Norm(At(v, outer, inner))
    ensures Has(Get(Norm(v), outer), inner) <==> Has(Get(v, outer), inner)
  {
    NormGet(v, outer);
    NormGet(Get(v, outer), inner);
  }

  lemma ItemNamed(item: Value, v: Value)
    ensures NameOf(Norm(item)).kind == Norm(Get(item, "kind"))
    ensures NameOf(Norm(item)).name == Norm(At(item, "metadata", "name"))
    ensures SameItem(item, v) <==>
              NameOf(Norm(item)).kind == NameOf(Norm(v)).kind && NameOf(Norm(item)).name == NameOf(Norm(v)).name
  {
    NormGet(item, "kind");
    NormGet(v, "kind");
    NormAt(item, "metadata", "name");
    NormAt(v, "metadata", "name");
    SameExactly(Get(item, "kind"), Get(v, "kind"));
    SameExactly(At(item, "metadata", "name"), At(v, "metadata", "name"));
  }

  lemma LastAmongFront<T>(s: seq<T>, fits: T -> bool, k: nat)
    requires s != [] && !fits(s[|s| - 1])
    ensures Last(s, fits, k) <==> Last(s[..|s| - 1], fits, k)
  {
    assert forall j :: 0 <= j < |s| - 1 ==> s[..|s| - 1][j] == s[j];
  }

  lemma FirstAmongRest<T>(s: seq<T>, fits: T -> bool, k: nat)
    requires s != [] && !fits(s[0])
    ensures First(s, fits, k + 1) <==> First(s[1..], fits, k)
  {
    assert forall j :: 0 <= j < |s| - 1 ==> s[1..][j] == s[j + 1];
  }

  lemma {:induction false} SignedIsLast(items: seq<Value>, v: Value, k: nat)
    requires Last(items, Items(v), k)
    ensures Signed(items, NameOf(Norm(v)).kind, NameOf(Norm(v)).name) == Some(Norm(items[k]))
    decreases |items|
  {
    ItemNamed(items[|items| - 1], v);
    if k < |items| - 1 {
      LastAmongFront(items, Items(v), k);
      SignedIsLast(items[..|items| - 1], v, k);
    }
  }

  lemma {:induction false} SignedIsThere(items: seq<Value>, v: Value) returns (k: nat)
    requires Signed(items, NameOf(Norm(v)).kind, NameOf(Norm(v)).name).Some?
    ensures Last(items, Items(v), k)
    decreases |items|
  {
    k := |items| - 1;
    ItemNamed(items[k], v);
    if !Items(v)(items[k]) {
      k := SignedIsThere(items[..|items| - 1], v);
      LastAmongFront(items, Items(v), k);
    }
  }

  lemma {:induction false} RequiredIsFirst(objects: seq<Prerequisite>, v: Value, k: nat)
    requires First(objects, Objects(v), k)
    ensures Required(objects, Address(v)) == Some(objects[k])
    decreases |objects|
  {
    if k > 0 {
      FirstAmongRest(objects, Objects(v), k - 1);
      RequiredIsFirst(objects[1..], v, k - 1);
    }
  }

  lemma {:induction false} RequiredIsThere(objects: seq<Prerequisite>, v: Value) returns (k: nat)
    requires Required(objects, Address(v)).Some?
    ensures First(objects, Objects(v), k)
    decreases |objects|
  {
    k := 0;
    if !Objects(v)(objects[0]) {
      k := RequiredIsThere(objects[1..], v);
      FirstAmongRest(objects, Objects(v), k);
      k := k + 1;
    }
  }

  lemma {:induction false} RuleIsFirst(objects: seq<Prerequisite>, namespace: string, k: nat)
    requires First(objects, Rules(namespace), k)
    ensures NamespaceRule(objects, namespace) == Some(objects[k])
    decreases |objects|
  {
    if k > 0 {
      FirstAmongRest(objects, Rules(namespace), k - 1);
      RuleIsFirst(objects[1..], namespace, k - 1);
    }
  }

  lemma {:induction false} RuleIsThere(objects: seq<Prerequisite>, namespace: string) returns (k: nat)
    requires NamespaceRule(objects, namespace).Some?
    ensures First(objects, Rules(namespace), k)
    decreases |objects|
  {
    k := 0;
    if !Rules(namespace)(objects[0]) {
      k := RuleIsThere(objects[1..], namespace);
      FirstAmongRest(objects, Rules(namespace), k);
      k := k + 1;
    }
  }

  lemma ControllerNamed(c: Contract, service: string)
    ensures var n := NameOf(Norm(Controller(c, service)));
            && n.kind == Text(if service == "generationcoordinator" then "StatefulSet" else "Deployment")
            && n.name == Text(c.deployment + "-" + service)
  {
    NormGet(Controller(c, service), "kind");
    NormAt(Controller(c, service), "metadata", "name");
  }

  lemma LabelNorm(v: Value, key: string, t: string)
    ensures Get(Labels(Norm(v)), key) == Text(t) <==> Get(At(v, "metadata", "labels"), key) == Text(t)
  {
    NormAt(v, "metadata", "labels");
    NormGet(At(v, "metadata", "labels"), key);
    NormText(Get(At(v, "metadata", "labels"), key), t);
  }

  lemma PodSpecNorm(item: Value)
    ensures PodSpec(Norm(item)) == if PodSpec(item).Some? then Some(Norm(PodSpec(item).value)) else None
  {
    NormAt(item, "spec", "template");
    NormGet(At(item, "spec", "template"), "spec");
  }

  lemma TemplateOf(c: Contract, v: Value, service: string)
    requires Claims(c, v, service)
    ensures var n := NameOf(Norm(Controller(c, service)));
            var signed := Signed(c.items, n.kind, n.name);
            Template(c, Norm(v)) == if signed.Some? then PodSpec(signed.value) else None
  {
    LabelNorm(v, "app.kubernetes.io/component", service);
    LabelNorm(v, "app.kubernetes.io/instance", c.deployment);
    LabelNorm(v, "app.kubernetes.io/part-of", "xiaozhi-agent-platform");
    ControllerNamed(c, service);
  }

  lemma TemplateClaims(c: Contract, v: Value) returns (service: string)
    requires Template(c, Norm(v)).Some?
    ensures Claims(c, v, service)
  {
    service := Get(Labels(Norm(v)), "app.kubernetes.io/component").text;
    LabelNorm(v, "app.kubernetes.io/component", service);
    LabelNorm(v, "app.kubernetes.io/instance", c.deployment);
    LabelNorm(v, "app.kubernetes.io/part-of", "xiaozhi-agent-platform");
  }

  lemma PodFitsMatches(c: Contract, v: Value) returns (service: string, k: nat)
    requires PodFits(c, Norm(v))
    ensures PodMatches(c, v, service, k)
  {
    service := TemplateClaims(c, v);
    TemplateOf(c, v, service);
    k := SignedIsThere(c.items, Controller(c, service));
    SignedIsLast(c.items, Controller(c, service), k);
    PodSpecNorm(c.items[k]);
    NormGet(v, "spec");
    SameExactly(Get(v, "spec"), PodSpec(c.items[k]).value);
  }

  lemma PodMatchesFits(c: Contract, v: Value, service: string, k: nat)
    requires PodMatches(c, v, service, k)
    ensures PodFits(c, Norm(v))
  {
    TemplateOf(c, v, service);
    SignedIsLast(c.items, Controller(c, service), k);
    PodSpecNorm(c.items[k]);
    NormGet(v, "spec");
    SameExactly(Get(v, "spec"), PodSpec(c.items[k]).value);
  }

  lemma SpecsEqual(v: Value, was: Value)
    ensures Spec(Norm(v)) == Spec(Norm(was)) <==> Same(Get(v, "spec"), Get(was, "spec"))
  {
    NormGet(v, "spec");
    NormGet(was, "spec");
    SameExactly(Get(v, "spec"), Get(was, "spec"));
  }

  lemma FieldsHeld(m: map<string, Value>, p: Prerequisite)
    ensures Elements(Norm(Fields(m))) == Some(Names(p)) <==> m.Keys == p.keys
  {
    var n := Norm(Fields(m)).entries;
    assert n.Keys == m.Keys;
    if Elements(Norm(Fields(m))) == Some(Names(p)) {
      forall k ensures k in m.Keys <==> k in p.keys {
        assert Text(k) in Elements(Norm(Fields(m))).value <==> k in n;
        assert Text(k) in Names(p) <==> k in p.keys;
      }
    }
  }

  lemma TextHeld(t: string, p: Prerequisite)
    ensures Elements(Text(t)) == Some(Names(p)) <==> Holding(Text(t), p.keys)
  {
    var es := Elements(Text(t)).value;
    if es == Names(p) {
      forall ch | ch in t ensures [ch] in p.keys { assert Text([ch]) in es; }
      forall k | k in p.keys ensures |k| == 1 && k[0] in t { assert Text(k) in Names(p); }
    }
    if Holding(Text(t), p.keys) {
      forall x ensures x in es <==> x in Names(p) {
        if x in Names(p) { assert x.text == [x.text[0]]; }
      }
    }
  }

  lemma ListHeld(s: seq<Value>, p: Prerequisite)
    ensures Elements(Norm(List(s))) == Some(Names(p)) <==> Holding(List(s), p.keys)
  {
    var n := Norm(List(s)).items;
    assert |n| == |s| && forall i :: 0 <= i < |s| ==> n[i] == Norm(s[i]);
    if Elements(List(n)) == Some(Names(p)) { ElementsHolding(s, n, p); }
    if Holding(List(s), p.keys) { HoldingElements(s, n, p); }
  }

  lemma ElementsHolding(s: seq<Value>, n: seq<Value>, p: Prerequisite)
    requires |n| == |s| && (forall i :: 0 <= i < |s| ==> n[i] == Norm(s[i])) && Elements(List(n)) == Some(Names(p))
    ensures Holding(List(s), p.keys)
  {
    forall x | x in s ensures x.Text? && x.text in p.keys {
      var i :| 0 <= i < |s| && s[i] == x;
      assert n[i] in Names(p);
    }
    forall k | k in p.keys ensures Text(k) in s {
      assert Text(k) in Names(p);
      var i :| 0 <= i < |n| && n[i] == Text(k);
      NormText(s[i], k);
    }
  }

  lemma HoldingElements(s: seq<Value>, n: seq<Value>, p: Prerequisite)
    requires |n| == |s| && (forall i :: 0 <= i < |s| ==> n[i] == Norm(s[i])) && Holding(List(s), p.keys)
    ensures Elements(List(n)) == Some(Names(p))
  {
    forall i | 0 <= i < |n| ensures n[i] == s[i] && n[i].Text? { assert s[i] in s; }
    assert n == s;
    assert (set x | x in n) == Names(p);
  }

  lemma HoldingExactly(data: Value, p: Prerequisite)
    ensures Elements(Norm(data)) == Some(Names(p)) <==> Holding(data, p.keys)
  {
    match data
    case Fields(m) => FieldsHeld(m, p);
    case List(s) => ListHeld(s, p);
    case Text(t) => TextHeld(t, p);
    case _ =>
  }

  lemma HolderExactly(v: Value, p: Prerequisite)
    ensures HeldCreate(Norm(v), p, Get(v, "immutable") == Flag(true)) <==> HolderCreated(v, p)
  {
    NormGet(v, "type");
    NormGet(v, "data");
    SameExactly(Get(v, "type"), p.secretType);
    NormText(p.secretType, "Opaque");
    HoldingExactly(Get(v, "data"), p);
    NoNames(p);
  }

  lemma TruthyNorm(v: Value)
    ensures Truthy(Norm(v)) <==> Truthy(v)
  {
    match v
    case Fields(m) => assert Norm(v).entries.Keys == m.Keys;
    case List(s) => assert |Norm(v).items| == |s|;
    case _ =>
  }

  lemma WithinNorm(t: string, v: Value)
    ensures Within(t, Norm(v)) <==> Within(t, v)
  {
    match v
    case List(s) =>
      var n := Norm(v).items;
      assert |n| == |s| && forall i :: 0 <= i < |s| ==> n[i] == Norm(s[i]);
      if Text(t) in n {
        var i :| 0 <= i < |n| && n[i] == Text(t);
        NormText(s[i], t);
      }
      if Text(t) in s {
        var i :| 0 <= i < |s| && s[i] == Text(t);
        assert n[i] == Text(t);
      }
    case _ =>
  }

  lemma MentionsExactly(v: Value, t: string)
    ensures Mentions(v, t) <==> Within(t, v)
  {
    if v.Text? {
      var whole := v.text;
      if i :| 0 <= i <= |whole| && t <= whole[i..] { assert whole == whole[..i] + t + whole[i + |t|..]; }
      if before, after :| whole == before + t + after { assert t <= whole[|before|..]; }
    }
  }

  lemma ClaimCreatedExactly(v: Value)
    ensures Kind(Norm(v)) == CLAIM && ClaimCreate(Norm(v)) <==> ClaimCreated(v)
  {
    NormGet(v, "kind");
    NormText(Get(v, "kind"), "PersistentVolumeClaim");
    NormAt(v, "spec", "accessModes");
    TruthyNorm(At(v, "spec", "accessModes"));
    NormAt(v, "spec", "resources");
    NormGet(At(v, "spec", "resources"), "requests");
    WithinNorm("storage", Get(At(v, "spec", "resources"), "requests"));
    MentionsExactly(Get(At(v, "spec", "resources"), "requests"), "storage");
    NormAt(v, "spec", "dataSource");
    NormAt(v, "spec", "dataSourceRef");
    NormAt(v, "spec", "volumeName");
  }

  lemma StableExactly(v: Value, was: Value)
    ensures SameStable(Norm(v), Norm(was)) <==>
            forall key :: key in STABLE ==> Same(At(v, "spec", key), At(was, "spec", key))
  {
    forall i | 0 <= i < |STABLE|
      ensures Get(Spec(Norm(v)), STABLE[i]) == Get(Spec(Norm(was)), STABLE[i]) <==>
              Same(At(v, "spec", STABLE[i]), At(was, "spec", STABLE[i]))
    {
      NormAt(v, "spec", STABLE[i]);
      NormAt(was, "spec", STABLE[i]);
      SameExactly(At(v, "spec", STABLE[i]), At(was, "spec", STABLE[i]));
    }
    forall key | key in STABLE ensures exists i :: 0 <= i < |STABLE| && STABLE[i] == key {}
  }

  lemma VolumeNorm(v: Value)
    ensures Volume(Norm(v)) == Norm(Volume(v)) && (Truthy(Volume(Norm(v))) <==> !NoVolume(v))
  {
    NormGet(v, "spec");
    NormAt(v, "spec", "volumeName");
    TruthyNorm(At(v, "spec", "volumeName"));
  }

  lemma ClaimUpdatedExactly(v: Value, was: Value)
    ensures ClaimUpdate(Norm(v), Norm(was)) <==> ClaimUpdated(v, was)
  {
    NormGet(v, "spec");
    NormGet(was, "spec");
    StableExactly(v, was);
    VolumeNorm(v);
    VolumeNorm(was);
    SameExactly(Volume(v), Volume(was));
  }

  /** The operation on documents without flags. */
  function NormOp(op: Operation): Operation {
    if op.Update? then Update(Norm(op.was)) else op
  }

  lemma ObjectExactly(op: Operation, v: Value, p: Prerequisite)
    ensures PrerequisiteAllows(p, NormOp(op), Norm(v), Get(v, "immutable") == Flag(true)) <==> ObjectAllowed(op, v, p)
  {
    NormGet(v, "kind");
    NormText(Get(v, "kind"), "ConfigMap");
    NormText(Get(v, "kind"), "Secret");
    HolderExactly(v, p);
    ClaimCreatedExactly(v);
    if op.Update? {
      NormGet(v, "data");
      NormGet(op.was, "data");
      SameExactly(Get(v, "data"), Get(op.was, "data"));
      ClaimUpdatedExactly(v, op.was);
    }
  }

  lemma NamespaceExactly(c: Contract, v: Value)
    ensures NamespaceFits(c, Norm(v)) <==> NamespaceAllowed(c, Create, v)
  {
    NormAt(v, "metadata", "name");
    NormText(At(v, "metadata", "name"), c.namespace);
    if NamespaceFits(c, Norm(v)) {
      var k := RuleIsThere(c.objects, c.namespace);
      RuleIsFirst(c.objects, c.namespace, k);
      forall key | key in c.objects[k].labels
        ensures Get(At(v, "metadata", "labels"), key) == Text(c.objects[k].labels[key])
      {
        LabelNorm(v, key, c.objects[k].labels[key]);
      }
    }
    if NamespaceAllowed(c, Create, v) {
      var k: nat :| First(c.objects, Rules(c.namespace), k) && forall key :: key in c.objects[k].labels ==>
        Get(At(v, "metadata", "labels"), key) == Text(c.objects[k].labels[key]);
      RuleIsFirst(c.objects, c.namespace, k);
      forall key | key in c.objects[k].labels
        ensures Get(Labels(Norm(v)), key) == Text(c.objects[k].labels[key])
      {
        LabelNorm(v, key, c.objects[k].labels[key]);
      }
    }
  }

  lemma PodExactly(c: Contract, op: Operation, v: Value)
    requires !op.Other?
    ensures PodAllowed(c, op, v) <==>
            op.Delete? || ((op.Update? ==> Spec(Norm(v)) == Spec(NormOp(op).was)) && PodFits(c, Norm(v)))
  {
    if op.Update? { SpecsEqual(v, op.was); }
    if PodFits(c, Norm(v)) { var service, k := PodFitsMatches(c, v); }
    if service, k: nat :| PodMatches(c, v, service, k) { PodMatchesFits(c, v, service, k); }
  }

  lemma Placed(v: Value, namespace: string)
    ensures NameOf(Norm(v)).kind == Norm(Get(v, "kind"))
    ensures Get(v, "kind") != Text("Namespace") ==>
              (NameOf(Norm(v)).namespace == Text(namespace) <==> At(v, "metadata", "namespace") == Text(namespace))
  {
    NormGet(v, "kind");
    NormText(Get(v, "kind"), "Namespace");
    NormAt(v, "metadata", "namespace");
    NormText(At(v, "metadata", "namespace"), namespace);
  }

  lemma ItemExactly(op: Operation, v: Value, signed: Value)
    ensures ItemAllowed(op, v, signed) <==>
            match NormOp(op)
            case Create => Norm(v) == Norm(signed)
            case Update(was) => Spec(Norm(v)) == Spec(was)
            case _ => false
  {
    SameExactly(v, signed);
    if op.Update? { SpecsEqual(v, op.was); }
  }

  predicate OthersJudged(c: Contract, op: Operation, v: Value, locked: bool) {
    var n := NameOf(v);
    match Signed(c.items, n.kind, n.name)
    case Some(signed) =>
      (match op
       case Create => v == signed
       case Update(was) => Spec(v) == Spec(was)
       case _ => false)
    case None =>
      match Required(c.objects, n)
      case None => false
      case Some(p) => PrerequisiteAllows(p, op, v, locked)
  }

  lemma OthersSigned(c: Contract, op: Operation, v: Value)
    requires Signed(c.items, NameOf(Norm(v)).kind, NameOf(Norm(v)).name).Some?
    ensures OthersAllowed(c, op, v) <==> OthersJudged(c, NormOp(op), Norm(v), Get(v, "immutable") == Flag(true))
  {
    var k := ItemsExactly(c, op, v);
  }

  lemma NoneSigned(c: Contract, v: Value, k: nat)
    requires Signed(c.items, NameOf(Norm(v)).kind, NameOf(Norm(v)).name).None?
    ensures !Last(c.items, Items(v), k)
  {
    if Last(c.items, Items(v), k) { SignedIsLast(c.items, v, k); }
  }

  lemma OthersUnsigned(c: Contract, op: Operation, v: Value)
    requires Signed(c.items, NameOf(Norm(v)).kind, NameOf(Norm(v)).name).None?
    ensures OthersAllowed(c, op, v) <==> OthersJudged(c, NormOp(op), Norm(v), Get(v, "immutable") == Flag(true))
  {
    forall k: nat ensures !Last(c.items, Items(v), k) { NoneSigned(c, v, k); }
    ObjectsExactly(c, op, v);
  }

  lemma OthersExactly(c: Contract, op: Operation, v: Value)
    ensures OthersAllowed(c, op, v) <==> OthersJudged(c, NormOp(op), Norm(v), Get(v, "immutable") == Flag(true))
  {
    if Signed(c.items, NameOf(Norm(v)).kind, NameOf(Norm(v)).name).Some? {
      OthersSigned(c, op, v);
    } else {
      OthersUnsigned(c, op, v);
    }
  }

  lemma ItemsExactly(c: Contract, op: Operation, v: Value) returns (k: nat)
    requires Signed(c.items, NameOf(Norm(v)).kind, NameOf(Norm(v)).name).Some?
    ensures Last(c.items, Items(v), k)
    ensures Signed(c.items, NameOf(Norm(v)).kind, NameOf(Norm(v)).name) == Some(Norm(c.items[k]))
    ensures (exists j: nat :: Last(c.items, Items(v), j) && ItemAllowed(op, v, c.items[j])) <==>
            match NormOp(op)
            case Create => Norm(v) == Norm(c.items[k])
            case Update(was) => Spec(Norm(v)) == Spec(was)
            case _ => false
  {
    k := SignedIsThere(c.items, v);
    SignedIsLast(c.items, v, k);
    ItemExactly(op, v, c.items[k]);
    forall j: nat | Last(c.items, Items(v), j) ensures j == k { OneLast(c.items, Items(v), j, k); }
  }

  lemma ObjectsExactly(c: Contract, op: Operation, v: Value)
    ensures (exists k: nat :: First(c.objects, Objects(v), k) && ObjectAllowed(op, v, c.objects[k])) <==>
            match Required(c.objects, Address(v))
            case None => false
            case Some(p) => PrerequisiteAllows(p, NormOp(op), Norm(v), Get(v, "immutable") == Flag(true))
  {
    if Required(c.objects, Address(v)).Some? {
      var k := RequiredIsThere(c.objects, v);
      RequiredIsFirst(c.objects, v, k);
      ObjectExactly(op, v, c.objects[k]);
      forall j: nat | First(c.objects, Objects(v), j) ensures j == k { OneFirst(c.objects, Objects(v), j, k); }
    } else {
      forall k: nat ensures !First(c.objects, Objects(v), k) {
        if First(c.objects, Objects(v), k) { RequiredIsFirst(c.objects, v, k); }
      }
    }
  }

  lemma OneLast<T>(s: seq<T>, fits: T -> bool, j: nat, k: nat)
    requires Last(s, fits, j) && Last(s, fits, k)
    ensures j == k
  {
  }

  lemma OneFirst<T>(s: seq<T>, fits: T -> bool, j: nat, k: nat)
    requires First(s, fits, j) && First(s, fits, k)
    ensures j == k
  {
  }

  /** The oracle admits exactly what `Permits` says. */
  lemma AllowsExactly(c: Contract, op: Operation, v: Value)
    ensures Allows(c, op, v) <==> Permits(c, op, v)
  {
    Placed(v, c.namespace);
    NormText(Get(v, "kind"), "Namespace");
    NormText(Get(v, "kind"), "Pod");
    NamespaceExactly(c, v);
    if !op.Other? { PodExactly(c, op, v); }
    OthersExactly(c, op, v);
  }

  /** A pod of the namespace can always be deleted, and no other object of it can. */
  lemma PodsCanBeDeleted(c: Contract, s: State, n: Name)
    requires n in s && Address(s[n]) == n && n.namespace == Text(c.namespace)
    ensures Step(c, s, DeleteRequest(s[n])) == if n.kind == Text("Pod") then s - {n} else s
  {
    Placed(s[n], c.namespace);
    AllowsExactly(c, Delete, s[n]);
  }

  /** A cluster that runs lead to has at most one namespace object, under the contract's name and in no namespace. */
  lemma OneNamespace(c: Contract, s: State, n: Name)
    requires Inv(c, s) && n in s && n.kind == Text("Namespace")
    ensures n == Name(Text("Namespace"), Null, Text(c.namespace))
  {
    assert Address(s[n]) == n && Fits(c, Norm(s[n]));
  }
}
