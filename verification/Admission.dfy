/** The admission webhook's update validation, and database immutability over runs.

    Changing the database under a running Heat would orphan its stacks, so a database that is
    set may change only through an update that carries the migration annotation.
 */
module Admission {
  import opened Names

  /** The fields both spec types embed. `rest` stands for what no rule looks at. */
  datatype SpecBase = SpecBase(databaseInstance: string, topology: Option<string>, deprecatedCluster: string,
                               messagingCluster: string, rest: nat)

  /** A service template without and with the container image. */
  datatype TemplateCore = TemplateCore(overrides: seq<string>, topology: Option<string>)
  datatype Template = Template(core: TemplateCore, containerImage: string)

  datatype HeatSpec = HeatSpec(base: SpecBase, api: Template, cfnApi: Template, engine: Template)
  datatype HeatSpecCore = HeatSpecCore(base: SpecBase, api: TemplateCore, cfnApi: TemplateCore, engine: TemplateCore)

  datatype FieldError =
    | DeprecatedChanged(name: string)
    | DatabaseForbidden
    | BadOverride(path: string, key: string)
    | ForeignTopology(path: string)

  /** The shared library's rule for a deprecated field: an argument, since its source is not part of this model. */
  type DeprecationRule = (SpecBase, SpecBase) -> seq<FieldError>

  /** Routed overrides may name two endpoints only. */
  function OverrideErrors(path: string, overrides: seq<string>): seq<FieldError> {
    if overrides == [] then []
    else
      var n := |overrides| - 1;
      OverrideErrors(path, overrides[..n])
      + if overrides[n] in {"internal", "public"} then [] else [BadOverride(path, overrides[n])]
  }

  /** A topology of another namespace is refused. */
  function TopologyErrors(path: string, topology: Option<string>, namespace: string): seq<FieldError> {
    if topology.Some? && topology.value != "" && topology.value != namespace then [ForeignTopology(path)] else []
  }

  predicate DatabaseMoves(was: SpecBase, now: SpecBase) {
    was.databaseInstance != "" && now.databaseInstance != was.databaseInstance
  }

  function AllTopologyErrors(base: SpecBase, api: TemplateCore, cfnApi: TemplateCore, engine: TemplateCore,
                             namespace: string): seq<FieldError>
  {
    TopologyErrors("topologyRef", base.topology, namespace)
    + TopologyErrors("heatAPI", api.topology, namespace)
    + TopologyErrors("heatCfnAPI", cfnApi.topology, namespace)
    + TopologyErrors("heatEngine", engine.topology, namespace)
  }

  /** What the update rules say of a spec after the deprecations: the database unless it is waived,
      the two override maps and the four topology references, in this order. */
  function LaterErrors(was: HeatSpecCore, now: HeatSpecCore, waived: bool, namespace: string): seq<FieldError> {
    (if !waived && DatabaseMoves(was.base, now.base) then [DatabaseForbidden] else [])
    + OverrideErrors("heatAPI", now.api.overrides)
    + OverrideErrors("heatCfnAPI", now.cfnApi.overrides)
    + AllTopologyErrors(now.base, now.api, now.cfnApi, now.engine, namespace)
  }

  function UpdateErrors(was: HeatSpecCore, now: HeatSpecCore, waived: bool, namespace: string,
                        deprecated: DeprecationRule)
    : seq<FieldError>
  {
    deprecated(was.base, now.base) + LaterErrors(was, now, waived, namespace)
  }

  // ---------------------------------------------------------------- which keys and names are refused

  predicate IsBad(key: string) {
    key != "internal" && key != "public"
  }

  function BadAmong(keys: seq<string>): nat {
    if keys == [] then 0 else BadAmong(keys[..|keys| - 1]) + if IsBad(keys[|keys| - 1]) then 1 else 0
  }

  /** One error for each key that names no endpoint and for no other, in order. */
  predicate NamesBadKeys(errs: seq<FieldError>, path: string, overrides: seq<string>) {
    && |errs| == BadAmong(overrides)
    && forall i | 0 <= i < |overrides| && IsBad(overrides[i]) ::
         BadAmong(overrides[..i]) < |errs| && errs[BadAmong(overrides[..i])] == BadOverride(path, overrides[i])
  }

  predicate ForeignAt(s: HeatSpecCore, namespace: string, path: string) {
    || (path == "topologyRef" && Foreign(s.base.topology, namespace))
    || (path == "heatAPI" && Foreign(s.api.topology, namespace))
    || (path == "heatCfnAPI" && Foreign(s.cfnApi.topology, namespace))
    || (path == "heatEngine" && Foreign(s.engine.topology, namespace))
  }

  /** The update moves the database without a waiver, has a key that names no endpoint, or leaves
      the namespace: each under the path where it does. */
  predicate HasToBeRefused(was: HeatSpecCore, now: HeatSpecCore, waived: bool, namespace: string, e: FieldError) {
    match e
    case DeprecatedChanged(_) => false
    case DatabaseForbidden =>
      !waived && was.base.databaseInstance != "" && now.base.databaseInstance != was.base.databaseInstance
    case BadOverride(path, key) =>
      key != "internal" && key != "public"
      && ((path == "heatAPI" && key in now.api.overrides) || (path == "heatCfnAPI" && key in now.cfnApi.overrides))
    case ForeignTopology(path) => ForeignAt(now, namespace, path)
  }

  /** The order of the rules: the database, the two override maps, the four topologies. */
  function Place(e: FieldError): nat {
    match e
    case DeprecatedChanged(_) => 0
    case DatabaseForbidden => 1
    case BadOverride(path, _) => if path == "heatAPI" then 2 else 3
    case ForeignTopology(path) =>
      if path == "topologyRef" then 4 else if path == "heatAPI" then 5 else if path == "heatCfnAPI" then 6 else 7
  }

  predicate InOrder(errs: seq<FieldError>) {
    forall i, j | 0 <= i < j < |errs| :: Place(errs[i]) <= Place(errs[j])
  }

  ghost predicate RefusesExactly(errs: seq<FieldError>, was: HeatSpecCore, now: HeatSpecCore, waived: bool,
                                 namespace: string)
  {
    InOrder(errs) && forall e :: e in errs <==> HasToBeRefused(was, now, waived, namespace, e)
  }

  predicate Foreign(topology: Option<string>, namespace: string) {
    topology.Some? && topology.value != "" && topology.value != namespace
  }

  /** Nothing to refuse: the database stays or its move is waived, every override key names an
      endpoint, and no topology leaves the namespace. */
  predicate Acceptable(was: HeatSpecCore, now: HeatSpecCore, waived: bool, namespace: string) {
    && (waived || was.base.databaseInstance == "" || now.base.databaseInstance == was.base.databaseInstance)
    && KeysAreEndpoints(now)
    && (forall t | t in {now.base.topology, now.api.topology, now.cfnApi.topology, now.engine.topology} ::
          t.None? || t.value == "" || t.value == namespace)
  }

  predicate KeysAreEndpoints(s: HeatSpecCore) {
    && (forall key | key in s.api.overrides :: key == "internal" || key == "public")
    && (forall key | key in s.cfnApi.overrides :: key == "internal" || key == "public")
  }

  lemma OneMoreKey(errs: seq<FieldError>, path: string, keys: seq<string>, key: string)
    requires NamesBadKeys(errs, path, keys)
    ensures NamesBadKeys(if IsBad(key) then errs + [BadOverride(path, key)] else errs, path, keys + [key])
  {
    var longer, n := keys + [key], |keys|;
    assert longer[..n] == keys && longer[n] == key;
    forall i | 0 <= i < n ensures longer[..i] == keys[..i] && longer[i] == keys[i] {
    }
  }

  lemma {:induction false} OverrideErrorIff(path: string, overrides: seq<string>, e: FieldError)
    ensures e in OverrideErrors(path, overrides)
            <==> e.BadOverride? && e.path == path && e.key in overrides && IsBad(e.key)
  {
    if overrides != [] {
      var n := |overrides| - 1;
      OverrideErrorIff(path, overrides[..n], e);
      assert overrides == overrides[..n] + [overrides[n]];
    }
  }

  /** So the list is empty if and only if every key names an endpoint. */
  lemma NothingBadIff(path: string, overrides: seq<string>)
    ensures OverrideErrors(path, overrides) == []
            <==> forall key | key in overrides :: key == "internal" || key == "public"
  {
    var errs := OverrideErrors(path, overrides);
    if errs != [] {
      OverrideErrorIff(path, overrides, errs[0]);
    } else {
      forall key | key in overrides ensures !IsBad(key) {
        OverrideErrorIff(path, overrides, BadOverride(path, key));
      }
    }
  }

  lemma TopologyErrorIff(s: HeatSpecCore, namespace: string, e: FieldError)
    ensures e in AllTopologyErrors(s.base, s.api, s.cfnApi, s.engine, namespace)
            <==> e.ForeignTopology? && ForeignAt(s, namespace, e.path)
  {
  }

  lemma LaterErrorIff(was: HeatSpecCore, now: HeatSpecCore, waived: bool, namespace: string, e: FieldError)
    ensures e in LaterErrors(was, now, waived, namespace) <==> HasToBeRefused(was, now, waived, namespace, e)
  {
    OverrideErrorIff("heatAPI", now.api.overrides, e);
    OverrideErrorIff("heatCfnAPI", now.cfnApi.overrides, e);
    TopologyErrorIff(now, namespace, e);
    hide OverrideErrors, AllTopologyErrors, ForeignAt;
  }

  lemma InOrderConcat(a: seq<FieldError>, b: seq<FieldError>, place: nat)
    requires InOrder(a) && InOrder(b)
    requires (forall e | e in a :: Place(e) <= place) && (forall e | e in b :: place <= Place(e))
    ensures InOrder(a + b)
  {
  }

  lemma {:induction false} OneKindInOrder(path: string, overrides: seq<string>)
    requires path == "heatAPI" || path == "heatCfnAPI"
    ensures InOrder(OverrideErrors(path, overrides))
    ensures forall e | e in OverrideErrors(path, overrides) :: Place(e) == if path == "heatAPI" then 2 else 3
  {
    forall e | e in OverrideErrors(path, overrides) ensures Place(e) == if path == "heatAPI" then 2 else 3 {
      OverrideErrorIff(path, overrides, e);
    }
  }

  lemma TopologiesInOrder(s: HeatSpecCore, namespace: string)
    ensures var errs := AllTopologyErrors(s.base, s.api, s.cfnApi, s.engine, namespace);
            InOrder(errs) && forall e | e in errs :: 4 <= Place(e)
  {
    var a, b := TopologyErrors("topologyRef", s.base.topology, namespace),
                TopologyErrors("heatAPI", s.api.topology, namespace);
    var c, d := TopologyErrors("heatCfnAPI", s.cfnApi.topology, namespace),
                TopologyErrors("heatEngine", s.engine.topology, namespace);
    assert (forall e | e in a :: Place(e) == 4) && (forall e | e in b :: Place(e) == 5);
    assert "heatEngine" != "heatAPI" && "heatEngine" != "heatCfnAPI" && "heatEngine" != "topologyRef" by {
      assert "heatEngine"[4] == 'E';
    }
    assert (forall e | e in c :: Place(e) == 6) && (forall e | e in d :: Place(e) == 7);
    hide TopologyErrors, Place;
    InOrderConcat(a, b, 4);
    InOrderConcat(a + b, c, 5);
    InOrderConcat(a + b + c, d, 6);
  }

  lemma LaterErrorsInOrder(was: HeatSpecCore, now: HeatSpecCore, waived: bool, namespace: string)
    ensures InOrder(LaterErrors(was, now, waived, namespace))
  {
    var database := if !waived && DatabaseMoves(was.base, now.base) then [DatabaseForbidden] else [];
    var api, cfnApi := OverrideErrors("heatAPI", now.api.overrides), OverrideErrors("heatCfnAPI", now.cfnApi.overrides);
    var topologies := AllTopologyErrors(now.base, now.api, now.cfnApi, now.engine, namespace);
    OneKindInOrder("heatAPI", now.api.overrides);
    OneKindInOrder("heatCfnAPI", now.cfnApi.overrides);
    TopologiesInOrder(now, namespace);
    assert "heatCfnAPI" != "heatAPI" && InOrder(database);
    hide OverrideErrors, AllTopologyErrors, InOrder;
    InOrderConcat(database, api, 1);
    InOrderConcat(database + api, cfnApi, 2);
    InOrderConcat(database + api + cfnApi, topologies, 3);
  }

  lemma AcceptableIff(was: HeatSpecCore, now: HeatSpecCore, waived: bool, namespace: string)
    ensures LaterErrors(was, now, waived, namespace) == [] <==> Acceptable(was, now, waived, namespace)
  {
    var api, cfnApi := OverrideErrors("heatAPI", now.api.overrides), OverrideErrors("heatCfnAPI", now.cfnApi.overrides);
    assert api == [] && cfnApi == [] <==> KeysAreEndpoints(now) by {
      NothingBadIff("heatAPI", now.api.overrides);
      NothingBadIff("heatCfnAPI", now.cfnApi.overrides);
    }
    var topologies := AllTopologyErrors(now.base, now.api, now.cfnApi, now.engine, namespace);
    assert topologies == []
           <==> forall t | t in {now.base.topology, now.api.topology, now.cfnApi.topology, now.engine.topology} ::
                  t.None? || t.value == "" || t.value == namespace;
    hide OverrideErrors, AllTopologyErrors, KeysAreEndpoints;
  }

  /** The errors refuse exactly what has to be refused, after the deprecations. */
  lemma UpdateErrorsRefuse(was: HeatSpecCore, now: HeatSpecCore, waived: bool, namespace: string,
                           deprecated: DeprecationRule)
    ensures var errs, first := UpdateErrors(was, now, waived, namespace, deprecated), deprecated(was.base, now.base);
            && first <= errs && RefusesExactly(errs[|first|..], was, now, waived, namespace)
            && (errs == [] <==> first == [] && Acceptable(was, now, waived, namespace))
  {
    hide OverrideErrors, AllTopologyErrors, HasToBeRefused, Acceptable, InOrder;
    var first, later := deprecated(was.base, now.base), LaterErrors(was, now, waived, namespace);
    assert (first + later)[|first|..] == later;
    forall e ensures e in later <==> HasToBeRefused(was, now, waived, namespace, e) {
      LaterErrorIff(was, now, waived, namespace, e);
    }
    AcceptableIff(was, now, waived, namespace);
    LaterErrorsInOrder(was, now, waived, namespace);
  }

  // ---------------------------------------------------------------- the webhook as it is coded

  /** The spec the control plane embeds: the same without container images. */
  function Core(s: HeatSpec): HeatSpecCore {
    HeatSpecCore(s.base, s.api.core, s.cfnApi.core, s.engine.core)
  }

  /** `ValidateRoutedOverrides` */
  method ValidateRoutedOverrides(path: string, overrides: seq<string>) returns (errs: seq<FieldError>)
    ensures errs == OverrideErrors(path, overrides)
    ensures errs == [] <==> forall key | key in overrides :: key == "internal" || key == "public"
    ensures NamesBadKeys(errs, path, overrides)
  {
    errs := [];
    var i := 0;
    while i < |overrides|
      invariant 0 <= i <= |overrides|
      invariant errs == OverrideErrors(path, overrides[..i])
      invariant NamesBadKeys(errs, path, overrides[..i])
    {
      hide NamesBadKeys;
      OneMoreKey(errs, path, overrides[..i], overrides[i]);
      assert overrides[..i + 1] == overrides[..i] + [overrides[i]] && overrides[..i + 1][..i] == overrides[..i];
      if overrides[i] !in {"internal", "public"} {
        errs := errs + [BadOverride(path, overrides[i])];
      }
      i := i + 1;
    }
    NothingBadIff(path, overrides);
    assert overrides[..i] == overrides;
  }

  method ValidateHeatTopology(base: SpecBase, api: TemplateCore, cfnApi: TemplateCore, engine: TemplateCore,
                              namespace: string)
    returns (allErrs: seq<FieldError>)
    ensures allErrs == AllTopologyErrors(base, api, cfnApi, engine, namespace)
    ensures allErrs == []
            <==> forall t | t in {base.topology, api.topology, cfnApi.topology, engine.topology} ::
                   t.None? || t.value == "" || t.value == namespace
  {
    allErrs := [];
    allErrs := allErrs + TopologyErrors("topologyRef", base.topology, namespace);
    allErrs := allErrs + TopologyErrors("heatAPI", api.topology, namespace);
    allErrs := allErrs + TopologyErrors("heatCfnAPI", cfnApi.topology, namespace);
    allErrs := allErrs + TopologyErrors("heatEngine", engine.topology, namespace);
  }

  lemma Appended(errs: seq<FieldError>, first: seq<FieldError>, later: seq<FieldError>, more: seq<FieldError>)
    requires errs == first + later
    ensures errs + more == first + (later + more)
  {
  }

  /** `HeatSpec.ValidateUpdate`: the database rule can be waived by the migration annotation. */
  method ValidateUpdate(was: HeatSpec, now: HeatSpec, annotated: bool, namespace: string, deprecated: DeprecationRule)
    returns (allErrs: seq<FieldError>)
    ensures allErrs == UpdateErrors(Core(was), Core(now), annotated, namespace, deprecated)
    ensures allErrs == []
            <==> deprecated(was.base, now.base) == [] && Acceptable(Core(was), Core(now), annotated, namespace)
    ensures deprecated(was.base, now.base) <= allErrs
    ensures RefusesExactly(allErrs[|deprecated(was.base, now.base)|..], Core(was), Core(now), annotated, namespace)
  {
    hide NamesBadKeys, RefusesExactly, Acceptable, OverrideErrors, AllTopologyErrors;
    allErrs := deprecated(was.base, now.base);
    if !annotated {
      if was.base.databaseInstance != "" && now.base.databaseInstance != was.base.databaseInstance {
        allErrs := allErrs + [DatabaseForbidden];
      }
    }
    ghost var d, later := deprecated(was.base, now.base), allErrs[|deprecated(was.base, now.base)|..];
    var errs := ValidateRoutedOverrides("heatAPI", now.api.core.overrides);
    Appended(allErrs, d, later, errs);
    allErrs, later := allErrs + errs, later + errs;
    errs := ValidateRoutedOverrides("heatCfnAPI", now.cfnApi.core.overrides);
    Appended(allErrs, d, later, errs);
    allErrs, later := allErrs + errs, later + errs;
    errs := ValidateHeatTopology(now.base, now.api.core, now.cfnApi.core, now.engine.core, namespace);
    Appended(allErrs, d, later, errs);
    allErrs, later := allErrs + errs, later + errs;
    UpdateErrorsRefuse(Core(was), Core(now), annotated, namespace, deprecated);
  }

  /** `HeatSpecCore.ValidateUpdate`: no annotation is looked at. */
  method ValidateUpdateCore(was: HeatSpecCore, now: HeatSpecCore, namespace: string, deprecated: DeprecationRule)
    returns (allErrs: seq<FieldError>)
    ensures allErrs == UpdateErrors(was, now, false, namespace, deprecated)
    ensures allErrs == [] <==> deprecated(was.base, now.base) == [] && Acceptable(was, now, false, namespace)
    ensures deprecated(was.base, now.base) <= allErrs
    ensures RefusesExactly(allErrs[|deprecated(was.base, now.base)|..], was, now, false, namespace)
  {
    hide NamesBadKeys, RefusesExactly, Acceptable, OverrideErrors, AllTopologyErrors;
    allErrs := deprecated(was.base, now.base);
    if was.base.databaseInstance != "" && now.base.databaseInstance != was.base.databaseInstance {
      allErrs := allErrs + [DatabaseForbidden];
    }
    ghost var d, later := deprecated(was.base, now.base), allErrs[|deprecated(was.base, now.base)|..];
    var errs := ValidateRoutedOverrides("heatAPI", now.api.overrides);
    Appended(allErrs, d, later, errs);
    allErrs, later := allErrs + errs, later + errs;
    errs := ValidateRoutedOverrides("heatCfnAPI", now.cfnApi.overrides);
    Appended(allErrs, d, later, errs);
    allErrs, later := allErrs + errs, later + errs;
    errs := ValidateHeatTopology(now.base, now.api, now.cfnApi, now.engine, namespace);
    Appended(allErrs, d, later, errs);
    allErrs, later := allErrs + errs, later + errs;
    UpdateErrorsRefuse(was, now, false, namespace, deprecated);
  }

  /** The two validations agree exactly where the annotation makes no difference: on every pair of
      specs without it, and with it if and only if the database does not move. */
  lemma ValidationsAgreeIff(was: HeatSpec, now: HeatSpec, annotated: bool, namespace: string,
                            deprecated: DeprecationRule)
    ensures UpdateErrors(Core(was), Core(now), annotated, namespace, deprecated)
            == UpdateErrors(Core(was), Core(now), false, namespace, deprecated)
            <==> !annotated || !DatabaseMoves(was.base, now.base)
  {
    var full := UpdateErrors(Core(was), Core(now), annotated, namespace, deprecated);
    var core := UpdateErrors(Core(was), Core(now), false, namespace, deprecated);
    if annotated && DatabaseMoves(was.base, now.base) {
      assert |core| == |full| + 1;
    }
  }

  // ---------------------------------------------------------------- over runs

  datatype Update = Update(spec: HeatSpecCore, waived: bool)

  predicate Admitted(was: HeatSpecCore, u: Update, namespace: string, deprecated: DeprecationRule) {
    UpdateErrors(was, u.spec, u.waived, namespace, deprecated) == []
  }

  predicate AllAdmitted(s: HeatSpecCore, updates: seq<Update>, namespace: string, deprecated: DeprecationRule)
    decreases |updates|
  {
    updates != [] ==>
      Admitted(s, updates[0], namespace, deprecated)
      && AllAdmitted(updates[0].spec, updates[1..], namespace, deprecated)
  }

  function SpecAt(s: HeatSpecCore, updates: seq<Update>, i: nat): HeatSpecCore
    requires i <= |updates|
  {
    if i == 0 then s else updates[i - 1].spec
  }

  /** Along any sequence of admitted updates, the database an object has at one point is the one
      it has at any later point, unless it was unset or an update in between carried the
      annotation. The specs the control plane embeds carry none, so theirs never changes. */
  lemma {:induction false} DatabaseIsImmutable(s: HeatSpecCore, updates: seq<Update>, i: nat, j: nat, namespace: string,
                                               deprecated: DeprecationRule)
    requires AllAdmitted(s, updates, namespace, deprecated) && i <= j <= |updates|
    requires SpecAt(s, updates, i).base.databaseInstance != ""
    requires forall k | i <= k < j :: !updates[k].waived
    ensures SpecAt(s, updates, j).base.databaseInstance == SpecAt(s, updates, i).base.databaseInstance
    decreases |updates|
  {
    hide UpdateErrors;
    if updates != [] && j > 0 {
      UpdateErrorsRefuse(s, updates[0].spec, updates[0].waived, namespace, deprecated);
      if i > 0 {
        DatabaseIsImmutable(updates[0].spec, updates[1..], i - 1, j - 1, namespace, deprecated);
      } else {
        assert !updates[0].waived;
        DatabaseIsImmutable(updates[0].spec, updates[1..], 0, j - 1, namespace, deprecated);
      }
    }
  }

  /** And every spec that such updates lead to has endpoints only as override keys, and no topology
      of another namespace, whatever the object had before. */
  lemma {:induction false} AdmittedSpecsAreClean(s: HeatSpecCore, updates: seq<Update>, i: nat, namespace: string,
                                                 deprecated: DeprecationRule)
    requires AllAdmitted(s, updates, namespace, deprecated) && 0 < i <= |updates|
    ensures var now := SpecAt(s, updates, i);
            && KeysAreEndpoints(now)
            && forall t | t in {now.base.topology, now.api.topology, now.cfnApi.topology, now.engine.topology} ::
                 t.None? || t.value == "" || t.value == namespace
    decreases |updates|
  {
    if i == 1 {
      UpdateErrorsRefuse(s, updates[0].spec, updates[0].waived, namespace, deprecated);
    } else {
      AdmittedSpecsAreClean(updates[0].spec, updates[1..], i - 1, namespace, deprecated);
      assert updates[1..][i - 2] == updates[i - 1];
    }
  }
}
