/**
 * The per-resource loop of a deployment, shared by both repository
 * implementations: each resource is stamped with its ids, decoded and
 * validated, numbered, and registered as a process definition; the loop
 * stops at the first resource that fails. The loop is specified by a fold
 * over the resources, and what it guarantees is proved of the fold.
 */
module Deploy {
  import opened Common
  import opened Definitions

  // ------------------------------------------------------------------
  // Deployment: the per-resource loop of deployInternal
  // ------------------------------------------------------------------

  /** What deployInternal copies from the new deployment into each definition. */
  datatype DeploymentInfo = DeploymentInfo(id: string, category: string, tenantId: string)

  /** Decoding then validating one resource; the error is wrapped with the resource name. */
  function ParseResource(decode: Decoder, res: Resource): Result<Document>
  {
    match decode(res.content)
    case None => Err(Wrapped("failed to parse process definition '" + res.name + "'", DecodeError))
    case Some(doc) =>
      match Validate(decode(res.content))
      case Fail(e) => Err(Wrapped("invalid process definition '" + res.name + "'", e))
      case Pass => Ok(doc)
  }

  /** What the loop does to a resource's content before it registers a definition. */
  type Parser = Resource -> Result<Document>

  /** The store's parser: its decoder, then validation. */
  function ParserOf(decode: Decoder): Parser
  {
    res => ParseResource(decode, res)
  }

  /** How a definition id is formed from the key, the version and a UUID. */
  type IdFormat = (string, int, string) -> string

  /** Every id the format forms ends with the UUID it was given. */
  ghost predicate SuffixedByUuid(format: IdFormat)
  {
    forall key, version, uuid :: EndsWith(format(key, version, uuid), uuid)
  }

  /** The store's format, `%s:%d:%s`, is such a format. */
  lemma DefinitionIdSuffixedByUuid()
    ensures SuffixedByUuid(DefinitionId)
  {
    forall key, version, uuid
      ensures EndsWith(DefinitionId(key, version, uuid), uuid)
    {
      DefinitionIdEndsWithUuid(key, version, uuid);
    }
  }

  /**
   * The inputs of one run of the loop: how resources are parsed and ids
   * formed, the deployment the definitions belong to, the resources, and
   * the resource id and the UUID the loop draws for each resource.
   */
  datatype DeployRun = DeployRun(
    parse: Parser, format: IdFormat, info: DeploymentInfo,
    resources: seq<Resource>, resourceIds: seq<string>, uuids: seq<string>)
  {
    /** One resource id and one UUID per resource. */
    predicate Sized()
    {
      |resources| == |resourceIds| == |uuids|
    }

    /** Resource `k` once the loop has written its id and its deployment's id into it. */
    function Stamped(k: nat): Resource
      requires k < |resources| && k < |resourceIds|
    {
      resources[k].(id := resourceIds[k], deploymentId := info.id)
    }
  }

  /** The resource slice once the loop has reached `count` resources: those are stamped, the rest untouched. */
  function StampedPrefix(run: DeployRun, count: nat): (r: seq<Resource>)
    requires run.Sized() && count <= |run.resources|
    ensures |r| == |run.resources|
    ensures forall j :: 0 <= j < count ==> r[j] == run.Stamped(j)
    ensures forall j :: count <= j < |r| ==> r[j] == run.resources[j]
  {
    seq(|run.resources|, j requires 0 <= j < |run.resources| =>
      if j < count then run.Stamped(j) else run.resources[j])
  }

  /** Stamping resource `count` extends the stamped prefix by one. */
  lemma StampOneMore(run: DeployRun, count: nat)
    requires run.Sized() && count < |run.resources|
    ensures StampedPrefix(run, count)[count := run.Stamped(count)] == StampedPrefix(run, count + 1)
  {
    var a := StampedPrefix(run, count)[count := run.Stamped(count)];
    var b := StampedPrefix(run, count + 1);
    assert forall j :: 0 <= j < |a| ==> a[j] == b[j];
  }

  /** The definition deployInternal builds for a resource whose document is `doc`. */
  ghost function NewDefinition(format: IdFormat, info: DeploymentInfo, defs: Definitions, res: Resource, doc: Document,
                               uuid: string): ProcessDefinition
  {
    var key := StringField(doc, "id");
    var version := NextVersion(defs, key);
    ProcessDefinition(
      format(key, version, uuid), key, StringField(doc, "name"), StringField(doc, "description"), version,
      info.category, info.id, res.name, info.tenantId, false, "", false, true)
  }

  /** The loop's state: the definitions so far, the ones it created, and the error that stopped it. */
  datatype Deploying = Deploying(definitions: Definitions, created: seq<ProcessDefinition>, error: Option<Error>)

  /** Registering one stamped resource: its parse error stops the loop, its document adds a definition. */
  ghost function Register(parse: Parser, format: IdFormat, info: DeploymentInfo, s: Deploying, res: Resource,
                          uuid: string): Deploying
  {
    match parse(res)
    case Err(e) => s.(error := Some(e))
    case Ok(doc) =>
      var d := NewDefinition(format, info, s.definitions, res, doc, uuid);
      Deploying(s.definitions[d.id := d], s.created + [d], None)
  }

  /** One iteration of the resource loop, on resource `k`. */
  ghost function DeployStep(run: DeployRun, s: Deploying, k: nat): Deploying
    requires run.Sized() && k < |run.resources|
  {
    Register(run.parse, run.format, run.info, s, run.Stamped(k), run.uuids[k])
  }

  /** The state after the first `k` iterations (the loop stops at the first error). */
  ghost function DeploySteps(run: DeployRun, defs: Definitions, k: nat): (s: Deploying)
    requires run.Sized() && k <= |run.resources|
    ensures s.error.None? ==> |s.created| == k
    ensures s.error.Some? ==> |s.created| < k
    decreases k
  {
    if k == 0 then Deploying(defs, [], None)
    else
      var s := DeploySteps(run, defs, k - 1);
      if s.error.Some? then s else DeployStep(run, s, k - 1)
  }

  /** The whole loop. */
  ghost function DeployAll(run: DeployRun, defs: Definitions): (s: Deploying)
    requires run.Sized()
    ensures Reached(s) <= |run.resources|
  {
    DeploySteps(run, defs, |run.resources|)
  }

  /** How many resources the loop has stamped: all it registered, plus the one it stopped at. */
  function Reached(s: Deploying): nat
  {
    if s.error.Some? then |s.created| + 1 else |s.created|
  }

  lemma {:induction false} DeployStopsAtError(run: DeployRun, defs: Definitions, k: nat, m: nat)
    requires run.Sized() && k <= m <= |run.resources|
    requires DeploySteps(run, defs, k).error.Some?
    ensures DeploySteps(run, defs, m) == DeploySteps(run, defs, k)
    decreases m - k
  {
    if k < m {
      DeployStopsAtError(run, defs, k, m - 1);
    }
  }

  /** The body of the resource loop for one stamped resource: parse it, number its key, register it. */
  method RegisterResource(parse: Parser, format: IdFormat, info: DeploymentInfo, s: Deploying, res: Resource,
                          uuid: string) returns (t: Deploying)
    ensures t == Register(parse, format, info, s, res, uuid)
  {
    var parsed := parse(res);
    if parsed.Err? {
      return s.(error := Some(parsed.error));
    }
    var key := StringField(parsed.value, "id");
    var version := ComputeVersion(s.definitions, key);
    var d := ProcessDefinition(
      format(key, version, uuid), key, StringField(parsed.value, "name"),
      StringField(parsed.value, "description"), version, info.category, info.id, res.name, info.tenantId,
      false, "", false, true);
    t := Deploying(s.definitions[d.id := d], s.created + [d], None);
  }

  /**
   * deployInternal's resource loop: write each resource's id and deployment
   * id, parse it, number it, and register its definition; stop at the first
   * resource that fails. Also gives the resource slice with the ids written
   * so far.
   */
  method RegisterResources(run: DeployRun, defs: Definitions) returns (s: Deploying, stamped: seq<Resource>)
    requires run.Sized()
    ensures s == DeployAll(run, defs) && stamped == StampedPrefix(run, Reached(s))
  {
    s := Deploying(defs, [], None);
    stamped := run.resources;
    var k := 0;
    while k < |run.resources|
      invariant 0 <= k <= |run.resources|
      invariant s == DeploySteps(run, defs, k)
      invariant s.error.None?
      invariant stamped == StampedPrefix(run, k)
    {
      var res := stamped[k].(id := run.resourceIds[k], deploymentId := run.info.id);
      StampOneMore(run, k);
      stamped := stamped[k := res];
      s := RegisterResource(run.parse, run.format, run.info, s, res, run.uuids[k]);
      if s.error.Some? {
        DeployStopsAtError(run, defs, k + 1, |run.resources|);
        return;
      }
      k := k + 1;
    }
  }

  // ------------------------------------------------------------------
  // What the loop guarantees
  // ------------------------------------------------------------------

  /** The ids of the definitions a run has created. */
  function CreatedIds(created: seq<ProcessDefinition>): set<string>
  {
    set j | 0 <= j < |created| :: created[j].id
  }

  /** Every existing definition of `d`'s key has a lower version than `d`. */
  ghost predicate AboveExisting(defs: Definitions, d: ProcessDefinition)
  {
    forall id :: id in defs && defs[id].key == d.key ==> defs[id].version < d.version
  }

  /** What the loop promises of the definition it created for resource `j`. */
  ghost predicate CreatedWell(run: DeployRun, defs: Definitions, s: Deploying, j: nat)
    requires j < |s.created| <= |run.resources| && |s.created| <= |run.uuids|
  {
    && s.created[j].id == run.format(s.created[j].key, s.created[j].version, run.uuids[j])
    && s.created[j].id in s.definitions
    && s.definitions[s.created[j].id] == s.created[j]
    && s.created[j].resourceName == run.resources[j].name
    && s.created[j].deploymentId == run.info.id
    && !s.created[j].suspended
    && AboveExisting(defs, s.created[j])
  }

  /** The invariant of the resource loop. */
  ghost predicate DeployInvariant(run: DeployRun, defs: Definitions, s: Deploying)
  {
    && |s.created| <= |run.resources| && |s.created| <= |run.uuids|
    && s.definitions.Keys == defs.Keys + CreatedIds(s.created)
    && (forall id :: id in defs ==> s.definitions[id] == defs[id])
    && (forall j :: 0 <= j < |s.created| ==> CreatedWell(run, defs, s, j))
  }

  /** Two strings ending in different UUIDs of the same length differ, and neither ends in the other's UUID. */
  lemma SuffixesDistinct(a: string, u: string, b: string, w: string)
    requires EndsWith(a, u) && EndsWith(b, w) && |u| == |w| && u != w
    ensures a != b && !EndsWith(a, w)
  {
  }

  /** The id drawn for the next resource is not registered yet. */
  lemma {:induction false} NextIdIsFresh(run: DeployRun, defs: Definitions, s: Deploying, key: string, version: int)
    requires SuffixedByUuid(run.format) && FreshUuids(defs, run.uuids)
    requires DeployInvariant(run, defs, s)
    requires |s.created| < |run.uuids|
    ensures run.format(key, version, run.uuids[|s.created|]) !in s.definitions
  {
    var j := |s.created|;
    var id := run.format(key, version, run.uuids[j]);
    assert EndsWith(id, run.uuids[j]);
    assert id !in defs;
    forall i | 0 <= i < j
      ensures s.created[i].id != id
    {
      assert CreatedWell(run, defs, s, i);
      var c := s.created[i];
      assert EndsWith(c.id, run.uuids[i]);
      SuffixesDistinct(c.id, run.uuids[i], id, run.uuids[j]);
    }
  }

  /** Registering a definition under a fresh id keeps what was promised of the earlier ones. */
  lemma {:induction false} CreatedWellKept(run: DeployRun, defs: Definitions, s: Deploying, t: Deploying,
                                           d: ProcessDefinition, i: nat)
    requires |t.created| <= |run.resources| && |t.created| <= |run.uuids|
    requires d.id !in s.definitions
    requires t.definitions == s.definitions[d.id := d] && t.created == s.created + [d]
    requires i < |s.created| && CreatedWell(run, defs, s, i)
    ensures CreatedWell(run, defs, t, i)
  {
    assert t.created[i] == s.created[i];
  }

  /** Registering a well-formed definition under a fresh id keeps the invariant. */
  lemma InvariantAfterRegister(run: DeployRun, defs: Definitions, s: Deploying, t: Deploying, d: ProcessDefinition)
    requires |t.created| <= |run.resources| && |t.created| <= |run.uuids|
    requires DeployInvariant(run, defs, s)
    requires d.id !in s.definitions
    requires t.definitions == s.definitions[d.id := d] && t.created == s.created + [d]
    requires CreatedWell(run, defs, t, |s.created|)
    ensures DeployInvariant(run, defs, t)
  {
    var j := |s.created|;
    assert CreatedIds(t.created) == CreatedIds(s.created) + {d.id} by {
      assert forall i :: 0 <= i < j ==> t.created[i] == s.created[i];
    }
    forall i | 0 <= i < j
      ensures CreatedWell(run, defs, t, i)
    {
      CreatedWellKept(run, defs, s, t, d, i);
    }
  }

  /** One iteration keeps the invariant, whether it registers a definition or stops. */
  lemma {:induction false} DeployInvariantStep(run: DeployRun, defs: Definitions, s: Deploying)
    requires run.Sized() && |s.created| < |run.resources|
    requires SuffixedByUuid(run.format) && FreshUuids(defs, run.uuids)
    requires DeployInvariant(run, defs, s)
    ensures DeployInvariant(run, defs, DeployStep(run, s, |s.created|))
  {
    var j := |s.created|;
    var res := run.Stamped(j);
    var t := DeployStep(run, s, j);
    if t.error.Some? {
      assert t == s.(error := t.error);
      forall i | 0 <= i < j
        ensures CreatedWell(run, defs, t, i)
      {
        assert CreatedWell(run, defs, s, i);
      }
    } else {
      var doc := run.parse(res).value;
      var d := NewDefinition(run.format, run.info, s.definitions, res, doc, run.uuids[j]);
      assert t == Deploying(s.definitions[d.id := d], s.created + [d], None);
      NextIdIsFresh(run, defs, s, d.key, d.version);
      NextVersionCharacterized(s.definitions, d.key, d.version);
      assert AboveExisting(defs, d) by {
        forall id | id in defs && defs[id].key == d.key
          ensures defs[id].version < d.version
        {
          assert s.definitions[id] == defs[id];
        }
      }
      assert CreatedWell(run, defs, t, j);
      InvariantAfterRegister(run, defs, s, t, d);
    }
  }

  lemma {:induction false} DeployInvariantHolds(run: DeployRun, defs: Definitions, k: nat)
    requires run.Sized() && k <= |run.resources|
    requires SuffixedByUuid(run.format) && FreshUuids(defs, run.uuids)
    ensures DeployInvariant(run, defs, DeploySteps(run, defs, k))
    decreases k
  {
    if k > 0 {
      DeployInvariantHolds(run, defs, k - 1);
      var s := DeploySteps(run, defs, k - 1);
      if s.error.None? {
        DeployInvariantStep(run, defs, s);
      }
    }
  }

  /**
   * A deployment run, whatever its outcome: every definition that existed is
   * kept as it was, every resource processed before the failure (or every
   * resource, when none fails) has registered one definition under a new id,
   * and that definition names its resource and the new deployment, is
   * active, and has a version above every existing version of its key.
   */
  lemma {:induction false} DeployRegistersDefinitions(run: DeployRun, defs: Definitions)
    requires run.Sized()
    requires SuffixedByUuid(run.format) && FreshUuids(defs, run.uuids)
    ensures var s := DeployAll(run, defs);
      && s.definitions.Keys == defs.Keys + CreatedIds(s.created)
      && (forall id :: id in defs ==> s.definitions[id] == defs[id])
      && (forall j :: 0 <= j < |s.created| ==>
            && s.definitions[s.created[j].id] == s.created[j]
            && s.created[j].resourceName == run.resources[j].name
            && s.created[j].deploymentId == run.info.id
            && !s.created[j].suspended
            && (forall id :: id in defs && defs[id].key == s.created[j].key ==> defs[id].version < s.created[j].version))
  {
    DeployInvariantHolds(run, defs, |run.resources|);
    var s := DeployAll(run, defs);
    forall j | 0 <= j < |s.created|
      ensures s.definitions[s.created[j].id] == s.created[j]
      ensures s.created[j].resourceName == run.resources[j].name
      ensures s.created[j].deploymentId == run.info.id
      ensures !s.created[j].suspended
      ensures AboveExisting(defs, s.created[j])
    {
      assert CreatedWell(run, defs, s, j);
    }
  }

  /** Resource `j`, with the ids the loop writes into it, passes the run's parser. */
  ghost predicate ResourceParses(run: DeployRun, j: nat)
    requires j < |run.resources| && j < |run.resourceIds|
  {
    run.parse(run.Stamped(j)).Ok?
  }

  /**
   * A run either processes every resource, or stops at the first resource
   * `k` that does not decode or validate, with that resource's error and the
   * definitions of resources `0..k-1` already registered.
   */
  lemma {:induction false} DeployStopsAtFirstFailure(run: DeployRun, defs: Definitions, k: nat)
    requires run.Sized() && k <= |run.resources|
    ensures var s := DeploySteps(run, defs, k);
      && (forall j :: 0 <= j < |s.created| ==> ResourceParses(run, j))
      && (s.error.Some? ==>
            && !ResourceParses(run, |s.created|)
            && s.error == Some(run.parse(run.Stamped(|s.created|)).error))
    decreases k
  {
    if k > 0 {
      DeployStopsAtFirstFailure(run, defs, k - 1);
      var s := DeploySteps(run, defs, k - 1);
      if s.error.None? {
        var t := DeploySteps(run, defs, k);
        if t.error.None? {
          forall i | 0 <= i < |t.created|
            ensures ResourceParses(run, i)
          {
          }
        }
      }
    }
  }

  /** `b` starts with `a`. */
  ghost predicate Extends(b: seq<ProcessDefinition>, a: seq<ProcessDefinition>)
  {
    |a| <= |b| && forall i :: 0 <= i < |a| ==> b[i] == a[i]
  }

  /** One iteration only appends to the created definitions, and never clears an error. */
  lemma CreatedGrows(run: DeployRun, defs: Definitions, k: nat)
    requires run.Sized() && k < |run.resources|
    ensures Extends(DeploySteps(run, defs, k + 1).created, DeploySteps(run, defs, k).created)
    ensures DeploySteps(run, defs, k + 1).error.None? ==> DeploySteps(run, defs, k).error.None?
  {
  }

  /** Later iterations only append to the created definitions; a run that got past `k` had no error by then. */
  lemma {:induction false} CreatedPrefix(run: DeployRun, defs: Definitions, k: nat, m: nat)
    requires run.Sized() && k <= m <= |run.resources|
    ensures Extends(DeploySteps(run, defs, m).created, DeploySteps(run, defs, k).created)
    ensures |DeploySteps(run, defs, m).created| >= k ==> DeploySteps(run, defs, k).error.None?
    decreases m - k
  {
    if k < m {
      CreatedPrefix(run, defs, k, m - 1);
      CreatedGrows(run, defs, m - 1);
      var a, b, c := DeploySteps(run, defs, k).created, DeploySteps(run, defs, m - 1).created, DeploySteps(run, defs, m).created;
      assert Extends(c, a) by {
        assert Extends(b, a) && Extends(c, b);
        forall i | 0 <= i < |a| ensures c[i] == a[i] {
          assert b[i] == a[i];
        }
      }
      if DeploySteps(run, defs, k).error.Some? {
        DeployStopsAtError(run, defs, k, m);
      }
    }
  }

  /**
   * Two consecutive resources that declare the same process key get
   * consecutive versions: each definition is registered before the next
   * resource is numbered.
   */
  lemma {:induction false} DeployConsecutiveVersions(run: DeployRun, defs: Definitions, j: nat)
    requires run.Sized()
    requires SuffixedByUuid(run.format) && FreshUuids(defs, run.uuids)
    requires j + 1 < |DeployAll(run, defs).created|
    requires DeployAll(run, defs).created[j].key == DeployAll(run, defs).created[j + 1].key
    ensures DeployAll(run, defs).created[j + 1].version == DeployAll(run, defs).created[j].version + 1
  {
    var n := |run.resources|;
    var all := DeployAll(run, defs);
    CreatedPrefix(run, defs, j + 2, n);
    CreatedPrefix(run, defs, j + 1, n);
    var s0 := DeploySteps(run, defs, j);
    var s1 := DeploySteps(run, defs, j + 1);
    var s2 := DeploySteps(run, defs, j + 2);
    CreatedGrows(run, defs, j);
    assert s1.error.None? && s2.error.None? && s0.error.None?;
    var d := s1.created[j];
    assert d == all.created[j];
    // d was numbered against s0.definitions and registered into s1.definitions
    var res := run.Stamped(j);
    assert d == NewDefinition(run.format, run.info, s0.definitions, res, run.parse(res).value, run.uuids[j]);
    assert s1.definitions == s0.definitions[d.id := d];
    DeployInvariantHolds(run, defs, j);
    NextIdIsFresh(run, defs, s0, d.key, d.version);
    NextVersionAfterInsert(s0.definitions, d, d.key);
    var res1 := run.Stamped(j + 1);
    assert s2.created[j + 1] == NewDefinition(run.format, run.info, s1.definitions, res1, run.parse(res1).value, run.uuids[j + 1]);
  }

  // ------------------------------------------------------------------
  // The whole of deployInternal on a store
  // ------------------------------------------------------------------

  /** The outcome of deployInternal on the whole store. */
  datatype DeployOutcome = DeployOutcome(
    definitions: Definitions, deployments: map<string, Deployment>, resources: seq<Resource>, result: Result<Deployment>)

  /** The run deployInternal performs: the store's decoder, the id format, and the new deployment. */
  function StoreRun(decode: Decoder, deploymentId: string, category: string, tenantId: string, resources: seq<Resource>,
                    resourceIds: seq<string>, uuids: seq<string>): DeployRun
  {
    DeployRun(ParserOf(decode), DefinitionId, DeploymentInfo(deploymentId, category, tenantId), resources, resourceIds, uuids)
  }

  ghost function DeployOutcomeOf(decode: Decoder, definitions: Definitions, deployments: map<string, Deployment>,
                                 name: string, category: string, tenantId: string, resources: seq<Resource>,
                                 deploymentId: string, resourceIds: seq<string>, uuids: seq<string>, now: Time): DeployOutcome
    requires |resources| == |resourceIds| == |uuids|
  {
    var run := StoreRun(decode, deploymentId, category, tenantId, resources, resourceIds, uuids);
    var s := DeployAll(run, definitions);
    var stamped := StampedPrefix(run, Reached(s));
    if s.error.Some? then DeployOutcome(s.definitions, deployments, stamped, Err(s.error.value))
    else
      var deployment := Deployment(deploymentId, name, now, category, tenantId, stamped);
      DeployOutcome(s.definitions, deployments[deploymentId := deployment], stamped, Ok(deployment))
  }

  /**
   * deployInternal on a store: the deployment is stored, holding every
   * resource stamped with its id and the deployment's id, exactly when every
   * resource decodes and validates; otherwise no deployment is stored, the
   * error is that of the first failing resource `k`, and the definitions of
   * resources `0..k-1` stay registered beside the ones that existed.
   */
  lemma DeployOutcomeOnStore(decode: Decoder, definitions: Definitions, deployments: map<string, Deployment>,
                             name: string, category: string, tenantId: string, resources: seq<Resource>,
                             deploymentId: string, resourceIds: seq<string>, uuids: seq<string>, now: Time)
    requires |resources| == |resourceIds| == |uuids|
    requires FreshUuids(definitions, uuids)
    ensures var run := StoreRun(decode, deploymentId, category, tenantId, resources, resourceIds, uuids);
      var o := DeployOutcomeOf(decode, definitions, deployments, name, category, tenantId, resources,
                               deploymentId, resourceIds, uuids, now);
      var created := DeployAll(run, definitions).created;
      && (o.result.Ok? <==> forall j :: 0 <= j < |resources| ==> ResourceParses(run, j))
      && (o.result.Ok? ==>
            && o.result.value == Deployment(deploymentId, name, now, category, tenantId, o.resources)
            && o.deployments == deployments[deploymentId := o.result.value]
            && |created| == |resources|
            && |o.resources| == |resources|
            && (forall j :: 0 <= j < |resources| ==> o.resources[j] == run.Stamped(j)))
      && (o.result.Err? ==>
            && o.deployments == deployments
            && |created| < |resources|
            && !ResourceParses(run, |created|)
            && o.result.error == ParseResource(decode, run.Stamped(|created|)).error)
      && (forall id :: id in definitions ==> id in o.definitions && o.definitions[id] == definitions[id])
      && o.definitions.Keys == definitions.Keys + CreatedIds(created)
      && (forall j :: 0 <= j < |created| ==>
            && created[j].id in o.definitions && o.definitions[created[j].id] == created[j]
            && created[j].resourceName == resources[j].name && created[j].deploymentId == deploymentId)
  {
    var run := StoreRun(decode, deploymentId, category, tenantId, resources, resourceIds, uuids);
    DefinitionIdSuffixedByUuid();
    DeployRegistersDefinitions(run, definitions);
    DeployStopsAtFirstFailure(run, definitions, |resources|);
  }
}
