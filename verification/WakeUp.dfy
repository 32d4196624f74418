/** Which objects are reconciled when a secret or topology changes: an index lookup per watched
    field, against a direct scan of the specs.
 */
module WakeUp {
  import opened Names

  datatype Field =
    | PasswordSecret | TransportUrlSecret | CaBundleSecret | TlsInternal | TlsPublic | CustomConfig | TopologyName
    | AuthCredential

  /** The fields of the specs of Heat, HeatAPI and HeatEngine that name other objects. */
  datatype Spec = Spec(
    secret: string,
    transportUrlSecret: string,
    caBundle: string,
    tlsInternal: Option<string>,
    tlsPublic: Option<string>,
    customSecrets: seq<string>,
    topology: Option<string>,
    credential: string)

  /** A key is unique among the objects of a kind in a namespace. */
  datatype Key = Key(namespace: string, name: string)
  datatype Object = Object(key: Key, spec: Spec)

  const HeatFields: seq<Field> := [PasswordSecret, CustomConfig, AuthCredential]
  const ApiFields: seq<Field> :=
    [PasswordSecret, TransportUrlSecret, CaBundleSecret, TlsInternal, TlsPublic, CustomConfig, TopologyName]
  const EngineFields: seq<Field> := [PasswordSecret, TransportUrlSecret, CaBundleSecret, CustomConfig, TopologyName]

  function NonEmpty(s: string): seq<string> {
    if s == "" then [] else [s]
  }

  function FromOption(o: Option<string>): seq<string> {
    match o
    case None => []
    case Some(n) => [n]
  }

  /** The index functions. The transport index asks for the password secret to be set. */
  function Index(f: Field, spec: Spec): seq<string> {
    match f
    case PasswordSecret => NonEmpty(spec.secret)
    case TransportUrlSecret => if spec.secret == "" then [] else [spec.transportUrlSecret]
    case CaBundleSecret => NonEmpty(spec.caBundle)
    case TlsInternal => FromOption(spec.tlsInternal)
    case TlsPublic => FromOption(spec.tlsPublic)
    case CustomConfig => spec.customSecrets
    case TopologyName => FromOption(spec.topology)
    case AuthCredential => NonEmpty(spec.credential)
  }

  /** A direct look at the spec: does this field hold the name? */
  predicate Mentions(f: Field, spec: Spec, name: string) {
    match f
    case PasswordSecret => spec.secret == name
    case TransportUrlSecret => spec.transportUrlSecret == name
    case CaBundleSecret => spec.caBundle == name
    case TlsInternal => spec.tlsInternal == Some(name)
    case TlsPublic => spec.tlsPublic == Some(name)
    case CustomConfig => name in spec.customSecrets
    case TopologyName => spec.topology == Some(name)
    case AuthCredential => spec.credential == name
  }

  predicate Hit(f: Field, o: Object, src: Key) {
    o.key.namespace == src.namespace && src.name in Index(f, o.spec)
  }

  predicate Distinct(objects: seq<Object>) {
    forall i, j | 0 <= i < j < |objects| :: objects[i].key != objects[j].key
  }

  /** The client's list call with a field selector. */
  function Listed(objects: seq<Object>, f: Field, src: Key): seq<Object> {
    if objects == [] then []
    else (if Hit(f, objects[0], src) then [objects[0]] else []) + Listed(objects[1..], f, src)
  }

  function Keys(objects: seq<Object>): seq<Key> {
    if objects == [] then [] else [objects[0].key] + Keys(objects[1..])
  }

  /** One request for every listed object of every field, in order. */
  function Requests(objects: seq<Object>, fields: seq<Field>, src: Key): seq<Key> {
    if fields == [] then [] else Keys(Listed(objects, fields[0], src)) + Requests(objects, fields[1..], src)
  }

  lemma {:induction false} RequestsSnoc(objects: seq<Object>, fields: seq<Field>, f: Field, src: Key)
    ensures Requests(objects, fields + [f], src) == Requests(objects, fields, src) + Keys(Listed(objects, f, src))
  {
    if fields == [] {
      assert fields + [f] == [f];
      assert Requests(objects, [f], src) == Keys(Listed(objects, f, src)) + Requests(objects, [], src);
    } else {
      assert (fields + [f])[0] == fields[0] && (fields + [f])[1..] == fields[1..] + [f];
      RequestsSnoc(objects, fields[1..], f, src);
    }
  }

  lemma {:induction false} KeysSnoc(objects: seq<Object>, o: Object)
    ensures Keys(objects + [o]) == Keys(objects) + [o.key]
  {
    if objects == [] {
      assert objects + [o] == [o];
      assert Keys([o]) == [o.key] + Keys([]);
    } else {
      assert (objects + [o])[0] == objects[0] && (objects + [o])[1..] == objects[1..] + [o];
      KeysSnoc(objects[1..], o);
    }
  }

  /** The inner loop: a request is appended for every listed item. */
  method AppendKeys(before: seq<Key>, items: seq<Object>) returns (requests: seq<Key>)
    ensures requests == before + Keys(items)
  {
    requests := before;
    var i := 0;
    while i < |items|
      invariant i <= |items| && requests == before + Keys(items[..i])
    {
      KeysSnoc(items[..i], items[i]);
      assert items[..i + 1] == items[..i] + [items[i]];
      requests := requests + [items[i].key];
      i := i + 1;
    }
    assert items[..i] == items;
  }

  /** `findObjectsForSrc`. A failing list call returns what was collected before it. */
  method FindObjectsForSrc(objects: seq<Object>, fields: seq<Field>, src: Key, listFails: Field -> bool)
    returns (requests: seq<Key>, done: nat)
    ensures done <= |fields| && forall i | 0 <= i < done :: !listFails(fields[i])
    ensures done < |fields| ==> listFails(fields[done])
    ensures requests == Requests(objects, fields[..done], src)
  {
    requests, done := [], 0;
    while done < |fields|
      invariant done <= |fields| && forall i | 0 <= i < done :: !listFails(fields[i])
      invariant requests == Requests(objects, fields[..done], src)
    {
      if listFails(fields[done]) {
        return;
      }
      requests := AppendKeys(requests, Listed(objects, fields[done], src));
      RequestsSnoc(objects, fields[..done], fields[done], src);
      assert fields[..done + 1] == fields[..done] + [fields[done]];
      done := done + 1;
    }
    assert fields[..done] == fields;
  }

  // ---------------------------------------------------------------- how often, and for whom

  function Count(requests: seq<Key>, k: Key): nat {
    if requests == [] then 0 else (if requests[0] == k then 1 else 0) + Count(requests[1..], k)
  }

  function FieldsHit(fields: seq<Field>, o: Object, src: Key): nat {
    if fields == [] then 0 else (if Hit(fields[0], o, src) then 1 else 0) + FieldsHit(fields[1..], o, src)
  }

  lemma {:induction false} CountConcat(a: seq<Key>, b: seq<Key>, k: Key)
    ensures Count(a + b, k) == Count(a, k) + Count(b, k)
  {
    if a == [] {
      assert a + b == b;
    } else {
      assert (a + b)[0] == a[0] && (a + b)[1..] == a[1..] + b;
      CountConcat(a[1..], b, k);
    }
  }

  lemma ListedHead(objects: seq<Object>, f: Field, src: Key)
    requires objects != []
    ensures Keys(Listed(objects, f, src))
            == if Hit(f, objects[0], src) then [objects[0].key] + Keys(Listed(objects[1..], f, src))
               else Keys(Listed(objects[1..], f, src))
  {
    var rest := Listed(objects[1..], f, src);
    if Hit(f, objects[0], src) {
      assert ([objects[0]] + rest)[0] == objects[0] && ([objects[0]] + rest)[1..] == rest;
    } else {
      assert [] + rest == rest;
      assert Listed(objects, f, src) == rest;
    }
  }

  lemma CountCons(x: Key, rest: seq<Key>, k: Key)
    ensures Count([x] + rest, k) == (if x == k then 1 else 0) + Count(rest, k)
  {
    assert ([x] + rest)[0] == x && ([x] + rest)[1..] == rest;
  }

  lemma {:induction false} AbsentKeyIsNotListed(objects: seq<Object>, f: Field, src: Key, k: Key)
    requires forall i | 0 <= i < |objects| :: objects[i].key != k
    ensures Count(Keys(Listed(objects, f, src)), k) == 0
  {
    if objects != [] {
      AbsentKeyIsNotListed(objects[1..], f, src, k);
      ListedHead(objects, f, src);
      CountCons(objects[0].key, Keys(Listed(objects[1..], f, src)), k);
    }
  }

  /** Keys are unique, so a list call returns an object once or not at all. */
  lemma {:induction false} ListedOnce(objects: seq<Object>, f: Field, src: Key, i: nat)
    requires Distinct(objects) && i < |objects|
    ensures Count(Keys(Listed(objects, f, src)), objects[i].key) == if Hit(f, objects[i], src) then 1 else 0
  {
    hide Listed, Count;
    if i == 0 {
      AbsentKeyIsNotListed(objects[1..], f, src, objects[0].key);
    } else {
      ListedOnce(objects[1..], f, src, i - 1);
    }
    ListedHead(objects, f, src);
    CountCons(objects[0].key, Keys(Listed(objects[1..], f, src)), objects[i].key);
  }

  /** An object is enqueued exactly as many times as it has watched fields indexing the name. */
  lemma {:induction false} EnqueuedOncePerField(objects: seq<Object>, fields: seq<Field>, src: Key, i: nat)
    requires Distinct(objects) && i < |objects|
    ensures Count(Requests(objects, fields, src), objects[i].key) == FieldsHit(fields, objects[i], src)
  {
    if fields != [] {
      ListedOnce(objects, fields[0], src, i);
      EnqueuedOncePerField(objects, fields[1..], src, i);
      CountConcat(Keys(Listed(objects, fields[0], src)), Requests(objects, fields[1..], src), objects[i].key);
    }
  }

  lemma {:induction false} CountedIffPresent(requests: seq<Key>, k: Key)
    ensures Count(requests, k) > 0 <==> k in requests
  {
    if requests != [] {
      CountedIffPresent(requests[1..], k);
    }
  }

  lemma {:induction false} HitIff(fields: seq<Field>, o: Object, src: Key)
    ensures FieldsHit(fields, o, src) > 0 <==> exists f | f in fields :: Hit(f, o, src)
  {
    if fields != [] {
      HitIff(fields[1..], o, src);
      if f :| f in fields && Hit(f, o, src) {
        assert f == fields[0] || f in fields[1..];
      }
    }
  }

  predicate Scanned(fields: seq<Field>, o: Object, src: Key) {
    o.key.namespace == src.namespace && exists f | f in fields :: Mentions(f, o.spec, src.name)
  }

  /** Index and scan agree on a field, for a real name, but for the transport index. */
  lemma IndexIsMention(f: Field, spec: Spec, name: string)
    requires name != ""
    ensures name in Index(f, spec) <==> Mentions(f, spec, name) && !(f.TransportUrlSecret? && spec.secret == "")
  {
  }

  /** Wake-up agrees with the scan: with the password secret set, as the code requires it to be,
      an object is enqueued if and only if a direct scan of its spec finds the name. */
  lemma {:induction false} EnqueuedIffScanned(objects: seq<Object>, fields: seq<Field>, src: Key, i: nat)
    requires Distinct(objects) && i < |objects| && src.name != ""
    requires objects[i].spec.secret != "" || TransportUrlSecret !in fields
    ensures objects[i].key in Requests(objects, fields, src) <==> Scanned(fields, objects[i], src)
  {
    EnqueuedOncePerField(objects, fields, src, i);
    CountedIffPresent(Requests(objects, fields, src), objects[i].key);
    HitIff(fields, objects[i], src);
    forall f | f in fields
      ensures src.name in Index(f, objects[i].spec) <==> Mentions(f, objects[i].spec, src.name)
    {
      IndexIsMention(f, objects[i].spec, src.name);
    }
    if o :| o in fields && Hit(o, objects[i], src) {
      assert Mentions(o, objects[i].spec, src.name);
    }
    if Scanned(fields, objects[i], src) {
      var f :| f in fields && Mentions(f, objects[i].spec, src.name);
      assert Hit(f, objects[i], src);
    }
  }

  /** Without it, exactly the objects whose transport secret no other watched field mentions miss
      a change that the scan would see. */
  lemma {:induction false} MissedIff(objects: seq<Object>, fields: seq<Field>, src: Key, i: nat)
    requires Distinct(objects) && i < |objects| && src.name != "" && TransportUrlSecret in fields
    requires objects[i].spec.secret == ""
    ensures Scanned(fields, objects[i], src) && objects[i].key !in Requests(objects, fields, src)
            <==> objects[i].key.namespace == src.namespace && objects[i].spec.transportUrlSecret == src.name
                 && forall f | f in fields && f != TransportUrlSecret :: !Mentions(f, objects[i].spec, src.name)
  {
    var o := objects[i];
    EnqueuedOncePerField(objects, fields, src, i);
    CountedIffPresent(Requests(objects, fields, src), o.key);
    HitIff(fields, o, src);
    forall f | f in fields
      ensures src.name in Index(f, o.spec) <==> Mentions(f, o.spec, src.name) && !f.TransportUrlSecret?
    {
      IndexIsMention(f, o.spec, src.name);
    }
    if Scanned(fields, o, src) && o.key !in Requests(objects, fields, src) {
      var f :| f in fields && Mentions(f, o.spec, src.name);
      assert !Hit(f, o, src);
      forall g | g in fields && g != TransportUrlSecret ensures !Mentions(g, o.spec, src.name) {
        assert !Hit(g, o, src);
      }
    } else if o.key.namespace == src.namespace && o.spec.transportUrlSecret == src.name {
      assert Mentions(TransportUrlSecret, o.spec, src.name);
      if o.key in Requests(objects, fields, src) {
        var f :| f in fields && Hit(f, o, src);
        assert Mentions(f, o.spec, src.name) && f != TransportUrlSecret;
      }
    }
  }

  lemma WatchedFields()
    ensures forall f :: f in HeatFields <==> f in {PasswordSecret, CustomConfig, AuthCredential}
    ensures forall f :: f in ApiFields <==> f != AuthCredential
    ensures forall f :: f in EngineFields <==> f !in {TlsInternal, TlsPublic, AuthCredential}
  {
    assert PasswordSecret == HeatFields[0] && CustomConfig == HeatFields[1] && AuthCredential == HeatFields[2];
    assert PasswordSecret == ApiFields[0] && TransportUrlSecret == ApiFields[1] && CaBundleSecret == ApiFields[2];
    assert TlsInternal == ApiFields[3] && TlsPublic == ApiFields[4] && CustomConfig == ApiFields[5];
    assert TopologyName == ApiFields[6];
    assert PasswordSecret == EngineFields[0] && TransportUrlSecret == EngineFields[1];
    assert CaBundleSecret == EngineFields[2] && CustomConfig == EngineFields[3] && TopologyName == EngineFields[4];
    forall f: Field
      ensures f in ApiFields <==> f != AuthCredential
      ensures f in EngineFields <==> f !in {TlsInternal, TlsPublic, AuthCredential}
    {
      assert f.PasswordSecret? || f.TransportUrlSecret? || f.CaBundleSecret? || f.TlsInternal? || f.TlsPublic?
             || f.CustomConfig? || f.TopologyName? || f.AuthCredential?;
    }
  }

  /** A Heat is enqueued exactly for its password secret, its custom secrets and its credential. */
  lemma {:induction false} HeatIsWokenIff(heats: seq<Object>, src: Key, i: nat)
    requires Distinct(heats) && i < |heats| && src.name != ""
    ensures var spec := heats[i].spec;
            heats[i].key in Requests(heats, HeatFields, src)
            <==> heats[i].key.namespace == src.namespace
                 && (spec.secret == src.name || src.name in spec.customSecrets || spec.credential == src.name)
  {
    WatchedFields();
    EnqueuedIffScanned(heats, HeatFields, src, i);
    var spec := heats[i].spec;
    assert Mentions(PasswordSecret, spec, src.name) <==> spec.secret == src.name;
    assert Mentions(CustomConfig, spec, src.name) <==> src.name in spec.customSecrets;
    assert Mentions(AuthCredential, spec, src.name) <==> spec.credential == src.name;
  }

  /** The fields of a child with the odd index are enough only beside a password secret. */
  lemma {:induction false} ChildIsWokenIff(children: seq<Object>, fields: seq<Field>, src: Key, i: nat)
    requires Distinct(children) && i < |children| && src.name != "" && TransportUrlSecret in fields
    ensures children[i].key in Requests(children, fields, src)
            <==> Scanned(fields, children[i], src)
                 && (children[i].spec.secret != ""
                     || exists f :: f in fields && f != TransportUrlSecret && Mentions(f, children[i].spec, src.name))
  {
    var o := children[i];
    if o.spec.secret != "" {
      EnqueuedIffScanned(children, fields, src, i);
    } else {
      MissedIff(children, fields, src, i);
      if o.key in Requests(children, fields, src) {
        EnqueuedAreScanned(children, fields, src, i);
      }
    }
  }

  /** A HeatAPI is enqueued exactly for the objects its spec names, but for its transport secret
      only if its password secret is set. */
  lemma {:induction false} ApiIsWokenIff(apis: seq<Object>, src: Key, i: nat)
    requires Distinct(apis) && i < |apis| && src.name != ""
    ensures var spec, name := apis[i].spec, src.name;
            apis[i].key in Requests(apis, ApiFields, src)
            <==> apis[i].key.namespace == src.namespace
                 && (spec.secret == name || (spec.transportUrlSecret == name && spec.secret != "")
                     || spec.caBundle == name || spec.tlsInternal == Some(name) || spec.tlsPublic == Some(name)
                     || name in spec.customSecrets || spec.topology == Some(name))
  {
    WatchedFields();
    ChildIsWokenIff(apis, ApiFields, src, i);
    var spec, name := apis[i].spec, src.name;
    assert Mentions(PasswordSecret, spec, name) <==> spec.secret == name;
    assert Mentions(TransportUrlSecret, spec, name) <==> spec.transportUrlSecret == name;
    assert Mentions(CaBundleSecret, spec, name) <==> spec.caBundle == name;
    assert Mentions(TlsInternal, spec, name) <==> spec.tlsInternal == Some(name);
    assert Mentions(TlsPublic, spec, name) <==> spec.tlsPublic == Some(name);
    assert Mentions(CustomConfig, spec, name) <==> name in spec.customSecrets;
    assert Mentions(TopologyName, spec, name) <==> spec.topology == Some(name);
  }

  lemma {:induction false} EngineIsWokenIff(engines: seq<Object>, src: Key, i: nat)
    requires Distinct(engines) && i < |engines| && src.name != ""
    ensures var spec, name := engines[i].spec, src.name;
            engines[i].key in Requests(engines, EngineFields, src)
            <==> engines[i].key.namespace == src.namespace
                 && (spec.secret == name || (spec.transportUrlSecret == name && spec.secret != "")
                     || spec.caBundle == name || name in spec.customSecrets || spec.topology == Some(name))
  {
    WatchedFields();
    ChildIsWokenIff(engines, EngineFields, src, i);
    var spec, name := engines[i].spec, src.name;
    assert Mentions(PasswordSecret, spec, name) <==> spec.secret == name;
    assert Mentions(TransportUrlSecret, spec, name) <==> spec.transportUrlSecret == name;
    assert Mentions(CaBundleSecret, spec, name) <==> spec.caBundle == name;
    assert Mentions(CustomConfig, spec, name) <==> name in spec.customSecrets;
    assert Mentions(TopologyName, spec, name) <==> spec.topology == Some(name);
  }

  lemma {:induction false} EnqueuedAreScanned(objects: seq<Object>, fields: seq<Field>, src: Key, i: nat)
    requires Distinct(objects) && i < |objects| && src.name != "" && objects[i].key in Requests(objects, fields, src)
    ensures Scanned(fields, objects[i], src)
  {
    EnqueuedOncePerField(objects, fields, src, i);
    CountedIffPresent(Requests(objects, fields, src), objects[i].key);
    HitIff(fields, objects[i], src);
    var f :| f in fields && Hit(f, objects[i], src);
    IndexIsMention(f, objects[i].spec, src.name);
  }

  // ---------------------------------------------------------------- HeatCfnAPI

  lemma {:induction false} AbsentKeyIsNotRequested(objects: seq<Object>, fields: seq<Field>, src: Key, k: Key)
    requires forall i | 0 <= i < |objects| :: objects[i].key != k
    ensures k !in Requests(objects, fields, src)
  {
    if fields != [] {
      AbsentKeyIsNotListed(objects, fields[0], src, k);
      CountedIffPresent(Keys(Listed(objects, fields[0], src)), k);
      AbsentKeyIsNotRequested(objects, fields[1..], src, k);
    }
  }

  /** The HeatCfnAPI lookup lists HeatAPI objects, so a HeatCfnAPI is enqueued if and only if a
      HeatAPI of the same key has a watched field that indexes the name. */
  lemma {:induction false} CfnApiIsWokenIff(apis: seq<Object>, fields: seq<Field>, src: Key, cfn: Key)
    requires Distinct(apis)
    ensures cfn in Requests(apis, fields, src)
            <==> exists i :: 0 <= i < |apis| && apis[i].key == cfn && FieldsHit(fields, apis[i], src) > 0
  {
    if i :| 0 <= i < |apis| && apis[i].key == cfn {
      EnqueuedOncePerField(apis, fields, src, i);
      CountedIffPresent(Requests(apis, fields, src), cfn);
      forall j | 0 <= j < |apis| && apis[j].key == cfn ensures j == i {
      }
    } else {
      AbsentKeyIsNotRequested(apis, fields, src, cfn);
    }
  }

  /** A change that a scan of the HeatCfnAPI finds is missed if and only if no HeatAPI of the same
      key is hit by it. What the HeatCfnAPI itself refers to plays no part. */
  lemma {:induction false} CfnApiIsMissedIff(apis: seq<Object>, fields: seq<Field>, src: Key, cfn: Object)
    requires Distinct(apis) && Scanned(fields, cfn, src)
    ensures cfn.key !in Requests(apis, fields, src)
            <==> forall i | 0 <= i < |apis| && apis[i].key == cfn.key :: FieldsHit(fields, apis[i], src) == 0
  {
    CfnApiIsWokenIff(apis, fields, src, cfn.key);
  }

  const CfnFields: seq<Field> := ApiFields

  /** The names the parent gives its children. */
  function ApiName(parent: string): string {
    parent + "-api"
  }

  function CfnApiName(parent: string): string {
    parent + "-cfnapi"
  }

  lemma NamesDiffer(parent: string, other: string)
    ensures ApiName(parent) != CfnApiName(other)
  {
    var a, b := ApiName(parent), CfnApiName(other);
    assert a[|a| - 4] == '-';
    assert b[|b| - 4] == 'n';
  }

  /** As the parent names them, no HeatCfnAPI is ever enqueued, for no change at all. */
  lemma ParentsCfnApiIsNeverWoken(apis: seq<Object>, src: Key, namespace: string, parent: string)
    requires forall i | 0 <= i < |apis| :: exists other :: apis[i].key.name == ApiName(other)
    ensures Key(namespace, CfnApiName(parent)) !in Requests(apis, CfnFields, src)
  {
    var cfn := Key(namespace, CfnApiName(parent));
    forall i | 0 <= i < |apis| ensures apis[i].key != cfn {
      var other :| apis[i].key.name == ApiName(other);
      NamesDiffer(other, parent);
    }
    AbsentKeyIsNotRequested(apis, CfnFields, src, cfn);
  }

  /** An input: both children of one Heat refer to the changed secret, and the HeatCfnAPI is missed. */
  lemma CfnApiMissesItsSecret()
    ensures ApiName("heat") == "heat-api" && CfnApiName("heat") == "heat-cfnapi"
    ensures var spec := Spec("osp-secret", "rabbit", "", None, None, [], None, "");
            var api, cfn := Object(Key("ns", "heat-api"), spec), Object(Key("ns", "heat-cfnapi"), spec);
            var src := Key("ns", "osp-secret");
            && Scanned(CfnFields, cfn, src)
            && api.key in Requests([api], CfnFields, src) && cfn.key !in Requests([api], CfnFields, src)
  {
    var spec := Spec("osp-secret", "rabbit", "", None, None, [], None, "");
    var api, cfn := Object(Key("ns", "heat-api"), spec), Object(Key("ns", "heat-cfnapi"), spec);
    var src := Key("ns", "osp-secret");
    assert CfnFields[0] == PasswordSecret && Mentions(PasswordSecret, spec, "osp-secret");
    EnqueuedIffScanned([api], CfnFields, src, 0);
    assert "heat-api" != "heat-cfnapi" by {
      assert |"heat-api"| != |"heat-cfnapi"|;
    }
    AbsentKeyIsNotRequested([api], CfnFields, src, cfn.key);
  }
}
