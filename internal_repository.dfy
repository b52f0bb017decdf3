/**
 * The internal repository service: the same store as the in-memory
 * repository, with its deployment entry point taking the deployment's
 * name, category, tenant and resources directly, and with no builder or
 * query of its own.
 */
module InternalRepository {
  import opened Common
  import opened Definitions
  import opened Deploy
  import Repository

  /** The query builder the service would hand out; the service has none. */
  datatype DefinitionQuery = DefinitionQuery

  class Service {
    const databaseDriver: string
    const databaseUrl: string
    /** The JSON decoder the service applies to resource content. */
    const decode: Decoder
    var deployments: map<string, Deployment>
    var definitions: Definitions

    /** NewService: both maps empty. */
    constructor (databaseDriver: string, databaseUrl: string, decode: Decoder)
      ensures this.databaseDriver == databaseDriver && this.databaseUrl == databaseUrl && this.decode == decode
      ensures deployments == map[] && definitions == map[]
    {
      this.databaseDriver := databaseDriver;
      this.databaseUrl := databaseUrl;
      this.decode := decode;
      deployments := map[];
      definitions := map[];
    }

    /** No builder: the service returns nil. */
    function CreateDeployment(): (b: Option<Repository.DeploymentBuilder>)
      ensures b.None?
    {
      None
    }

    /** No query: the service returns nil. */
    function CreateProcessDefinitionQuery(): (q: Option<DefinitionQuery>)
      ensures q.None?
    {
      None
    }

    function GetDeployment(deploymentId: string): (r: Result<Deployment>)
      reads this
      ensures r.Ok? <==> deploymentId in deployments
      ensures r.Ok? ==> r.value == deployments[deploymentId]
      ensures r.Err? ==> r.error == NotFound("deployment", deploymentId)
    {
      if deploymentId in deployments then Ok(deployments[deploymentId]) else Err(NotFound("deployment", deploymentId))
    }

    method DeleteDeployment(deploymentId: string, cascade: bool) returns (r: Outcome)
      modifies this
      ensures deploymentId !in old(deployments) ==> r == Fail(NotFound("deployment", deploymentId)) && unchanged(this)
      ensures deploymentId in old(deployments) ==>
        && r == Pass
        && deployments == old(deployments) - {deploymentId}
        && definitions == (if cascade then OutsideDeployment(old(definitions), deploymentId) else old(definitions))
    {
      if deploymentId !in deployments {
        return Fail(NotFound("deployment", deploymentId));
      }
      if cascade {
        var kept, _ := RemoveWhere(definitions, (d: ProcessDefinition) => d.deploymentId == deploymentId);
        definitions := kept;
      }
      deployments := deployments - {deploymentId};
      r := Pass;
    }

    function GetProcessDefinition(definitionId: string): (r: Result<ProcessDefinition>)
      reads this
      ensures r.Ok? <==> definitionId in definitions
      ensures r.Ok? ==> r.value == definitions[definitionId]
      ensures r.Err? ==> r.error == NotFound("process definition", definitionId)
    {
      if definitionId in definitions then Ok(definitions[definitionId])
      else Err(NotFound("process definition", definitionId))
    }

    /** The latest version of the key. */
    method GetProcessDefinitionByKey(key: string) returns (r: Result<ProcessDefinition>)
      ensures r.Err? <==> forall id :: id in definitions ==> definitions[id].key != key
      ensures r.Err? ==> r.error == Failure("process definition not found with key: " + key)
      ensures r.Ok? ==> r.value.key == key && r.value in definitions.Values
      ensures r.Ok? ==> forall id :: id in definitions && definitions[id].key == key ==> definitions[id].version <= r.value.version
    {
      r := LatestByKey(definitions, key);
    }

    method SuspendProcessDefinition(definitionId: string) returns (r: Outcome)
      modifies this
      ensures definitionId !in old(definitions) ==> r == Fail(NotFound("process definition", definitionId)) && unchanged(this)
      ensures definitionId in old(definitions) ==>
        && r == Pass
        && definitions == old(definitions)[definitionId := old(definitions)[definitionId].(suspended := true)]
        && deployments == old(deployments)
    {
      if definitionId !in definitions {
        return Fail(NotFound("process definition", definitionId));
      }
      definitions := definitions[definitionId := definitions[definitionId].(suspended := true)];
      r := Pass;
    }

    method ActivateProcessDefinition(definitionId: string) returns (r: Outcome)
      modifies this
      ensures definitionId !in old(definitions) ==> r == Fail(NotFound("process definition", definitionId)) && unchanged(this)
      ensures definitionId in old(definitions) ==>
        && r == Pass
        && definitions == old(definitions)[definitionId := old(definitions)[definitionId].(suspended := false)]
        && deployments == old(deployments)
    {
      if definitionId !in definitions {
        return Fail(NotFound("process definition", definitionId));
      }
      definitions := definitions[definitionId := definitions[definitionId].(suspended := false)];
      r := Pass;
    }

    /** The content of the resource the definition was deployed from. */
    method GetProcessModel(definitionId: string) returns (r: Result<seq<byte>>)
      ensures definitionId !in definitions ==> r == Err(NotFound("process definition", definitionId))
      ensures definitionId in definitions && definitions[definitionId].deploymentId !in deployments ==>
        r == Err(NotFound("deployment", definitions[definitionId].deploymentId))
      ensures definitionId in definitions && definitions[definitionId].deploymentId in deployments ==>
        var def := definitions[definitionId];
        var resources := deployments[def.deploymentId].resources;
        && (r.Err? <==> forall j :: 0 <= j < |resources| ==> resources[j].name != def.resourceName)
        && (r.Err? ==> r.error == NotFound("resource", def.resourceName))
        && (r.Ok? ==> exists j :: FirstNamed(resources, def.resourceName, j) && r.value == resources[j].content)
    {
      if definitionId !in definitions {
        return Err(NotFound("process definition", definitionId));
      }
      var def := definitions[definitionId];
      if def.deploymentId !in deployments {
        return Err(NotFound("deployment", def.deploymentId));
      }
      var content := FindResourceContent(deployments[def.deploymentId].resources, def.resourceName);
      if content.None? {
        return Err(NotFound("resource", def.resourceName));
      }
      r := Ok(content.value);
    }

    /** Content that does not decode is invalid JSON; a decoded document passes iff it has every required key. */
    function ValidateProcessDefinition(content: seq<byte>): (r: Outcome)
      ensures decode(content).None? ==> r == Fail(Wrapped("invalid JSON", DecodeError))
      ensures decode(content).Some? ==> (r == Pass <==> forall f :: f in RequiredFields ==> f in decode(content).value)
      ensures r.Fail? && decode(content).Some? ==>
        exists j :: 0 <= j < |RequiredFields| && RequiredFields[j] !in decode(content).value
          && (forall i :: 0 <= i < j ==> RequiredFields[i] in decode(content).value)
          && r.error == MissingField(RequiredFields[j])
    {
      ValidateReportsFirstMissing(decode(content));
      Validate(decode(content))
    }

    /**
     * DeployInternal: the same resource loop as the in-memory store, on the
     * resources the caller passes; `stamped` is those resources as the loop
     * leaves them (the caller's records are updated in place).
     */
    method DeployInternal(name: string, category: string, tenantId: string, resources: seq<Resource>,
                          deploymentId: string, resourceIds: seq<string>, uuids: seq<string>, now: Time)
      returns (r: Result<Deployment>, stamped: seq<Resource>)
      requires |resourceIds| == |uuids| == |resources|
      modifies this
      ensures var outcome := DeployOutcomeOf(decode, old(definitions), old(deployments), name, category, tenantId,
                                             resources, deploymentId, resourceIds, uuids, now);
        && definitions == outcome.definitions && deployments == outcome.deployments
        && stamped == outcome.resources && r == outcome.result
    {
      var run := StoreRun(decode, deploymentId, category, tenantId, resources, resourceIds, uuids);
      var s;
      s, stamped := RegisterResources(run, definitions);
      definitions := s.definitions;
      if s.error.Some? {
        return Err(s.error.value), stamped;
      }
      var deployment := Deployment(deploymentId, name, now, category, tenantId, stamped);
      deployments := deployments[deploymentId := deployment];
      r := Ok(deployment);
    }
  }
}
