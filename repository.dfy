/**
 * The in-memory repository store: deployments, the process definitions
 * they registered, suspension, model lookup, and the fluent deployment
 * builder.
 */
module Repository {
  import opened Common
  import opened Definitions
  import opened Deploy

  // ------------------------------------------------------------------
  // The store
  // ------------------------------------------------------------------

  /** The service a builder deploys through: the in-memory store, or some other implementation. */
  datatype Backend = InMemory(impl: RepositoryService) | OtherBackend

  class RepositoryService {
    const databaseDriver: string
    const databaseUrl: string
    /** The JSON decoder the store applies to resource content. */
    const decode: Decoder
    var deployments: map<string, Deployment>
    var definitions: Definitions

    constructor (databaseDriver: string, databaseUrl: string, decode: Decoder)
      ensures this.databaseDriver == databaseDriver && this.databaseUrl == databaseUrl && this.decode == decode
      ensures deployments == map[] && definitions == map[]
    {
      this.databaseDriver := databaseDriver;
      this.databaseUrl := databaseUrl;
      this.decode := decode;
      deployments := map[];
      definitions := map[];
    }

    /** A builder with no resources that deploys into this store. */
    method CreateDeployment() returns (b: DeploymentBuilder)
      ensures fresh(b) && b.service == InMemory(this)
      ensures b.name == "" && b.category == "" && b.tenantId == "" && b.resources == []
    {
      b := new DeploymentBuilder(InMemory(this));
    }

    function GetDeployment(deploymentId: string): (r: Result<Deployment>)
      reads this
      ensures r.Ok? <==> deploymentId in deployments
      ensures r.Ok? ==> r.value == deployments[deploymentId]
      ensures r.Err? ==> r.error == NotFound("deployment", deploymentId)
    {
      if deploymentId in deployments then Ok(deployments[deploymentId]) else Err(NotFound("deployment", deploymentId))
    }

    method DeleteDeployment(deploymentId: string, cascade: bool) returns (r: Outcome)
      modifies this
      ensures deploymentId !in old(deployments) ==> r == Fail(NotFound("deployment", deploymentId)) && unchanged(this)
      ensures deploymentId in old(deployments) ==>
        && r == Pass
        && deployments == old(deployments) - {deploymentId}
        && definitions == (if cascade then OutsideDeployment(old(definitions), deploymentId) else old(definitions))
    {
      if deploymentId !in deployments {
        return Fail(NotFound("deployment", deploymentId));
      }
      if cascade {
        var kept, _ := RemoveWhere(definitions, (d: ProcessDefinition) => d.deploymentId == deploymentId);
        definitions := kept;
      }
      deployments := deployments - {deploymentId};
      r := Pass;
    }

    function GetProcessDefinition(definitionId: string): (r: Result<ProcessDefinition>)
      reads this
      ensures r.Ok? <==> definitionId in definitions
      ensures r.Ok? ==> r.value == definitions[definitionId]
      ensures r.Err? ==> r.error == NotFound("process definition", definitionId)
    {
      if definitionId in definitions then Ok(definitions[definitionId])
      else Err(NotFound("process definition", definitionId))
    }

    /** The latest version of the key. */
    method GetProcessDefinitionByKey(key: string) returns (r: Result<ProcessDefinition>)
      ensures r.Err? <==> forall id :: id in definitions ==> definitions[id].key != key
      ensures r.Err? ==> r.error == Failure("process definition not found with key: " + key)
      ensures r.Ok? ==> r.value.key == key && r.value in definitions.Values
      ensures r.Ok? ==> forall id :: id in definitions && definitions[id].key == key ==> definitions[id].version <= r.value.version
    {
      r := LatestByKey(definitions, key);
    }

    method SuspendProcessDefinition(definitionId: string) returns (r: Outcome)
      modifies this
      ensures definitionId !in old(definitions) ==> r == Fail(NotFound("process definition", definitionId)) && unchanged(this)
      ensures definitionId in old(definitions) ==>
        && r == Pass
        && definitions == old(definitions)[definitionId := old(definitions)[definitionId].(suspended := true)]
        && deployments == old(deployments)
    {
      if definitionId !in definitions {
        return Fail(NotFound("process definition", definitionId));
      }
      definitions := definitions[definitionId := definitions[definitionId].(suspended := true)];
      r := Pass;
    }

    method ActivateProcessDefinition(definitionId: string) returns (r: Outcome)
      modifies this
      ensures definitionId !in old(definitions) ==> r == Fail(NotFound("process definition", definitionId)) && unchanged(this)
      ensures definitionId in old(definitions) ==>
        && r == Pass
        && definitions == old(definitions)[definitionId := old(definitions)[definitionId].(suspended := false)]
        && deployments == old(deployments)
    {
      if definitionId !in definitions {
        return Fail(NotFound("process definition", definitionId));
      }
      definitions := definitions[definitionId := definitions[definitionId].(suspended := false)];
      r := Pass;
    }

    /** The content of the resource the definition was deployed from. */
    method GetProcessModel(definitionId: string) returns (r: Result<seq<byte>>)
      ensures definitionId !in definitions ==> r == Err(NotFound("process definition", definitionId))
      ensures definitionId in definitions && definitions[definitionId].deploymentId !in deployments ==>
        r == Err(NotFound("deployment", definitions[definitionId].deploymentId))
      ensures definitionId in definitions && definitions[definitionId].deploymentId in deployments ==>
        var def := definitions[definitionId];
        var resources := deployments[def.deploymentId].resources;
        && (r.Err? <==> forall j :: 0 <= j < |resources| ==> resources[j].name != def.resourceName)
        && (r.Err? ==> r.error == NotFound("resource", def.resourceName))
        && (r.Ok? ==> exists j :: FirstNamed(resources, def.resourceName, j) && r.value == resources[j].content)
    {
      if definitionId !in definitions {
        return Err(NotFound("process definition", definitionId));
      }
      var def := definitions[definitionId];
      if def.deploymentId !in deployments {
        return Err(NotFound("deployment", def.deploymentId));
      }
      var content := FindResourceContent(deployments[def.deploymentId].resources, def.resourceName);
      if content.None? {
        return Err(NotFound("resource", def.resourceName));
      }
      r := Ok(content.value);
    }

    /** Content that does not decode is invalid JSON; a decoded document passes iff it has every required key. */
    function ValidateProcessDefinition(content: seq<byte>): (r: Outcome)
      ensures decode(content).None? ==> r == Fail(Wrapped("invalid JSON", DecodeError))
      ensures decode(content).Some? ==> (r == Pass <==> forall f :: f in RequiredFields ==> f in decode(content).value)
      ensures r.Fail? && decode(content).Some? ==>
        exists j :: 0 <= j < |RequiredFields| && RequiredFields[j] !in decode(content).value
          && (forall i :: 0 <= i < j ==> RequiredFields[i] in decode(content).value)
          && r.error == MissingField(RequiredFields[j])
    {
      ValidateReportsFirstMissing(decode(content));
      Validate(decode(content))
    }

    /**
     * deployInternal: a deployment with a fresh id, then the resource loop;
     * the deployment is stored only when every resource registered.
     */
    method DeployInternal(builder: DeploymentBuilder, deploymentId: string, resourceIds: seq<string>,
                          uuids: seq<string>, now: Time) returns (r: Result<Deployment>)
      requires |resourceIds| == |uuids| == |builder.resources|
      modifies this, builder
      ensures var outcome := DeployOutcomeOf(decode, old(definitions), old(deployments), old(builder.name),
                                             old(builder.category), old(builder.tenantId), old(builder.resources),
                                             deploymentId, resourceIds, uuids, now);
        && definitions == outcome.definitions && deployments == outcome.deployments
        && builder.resources == outcome.resources && r == outcome.result
      ensures builder.name == old(builder.name) && builder.category == old(builder.category)
      ensures builder.tenantId == old(builder.tenantId)
    {
      var run := StoreRun(decode, deploymentId, builder.category, builder.tenantId, builder.resources, resourceIds, uuids);
      var s, stamped := RegisterResources(run, definitions);
      definitions := s.definitions;
      builder.resources := stamped;
      if s.error.Some? {
        return Err(s.error.value);
      }
      var deployment := Deployment(deploymentId, builder.name, now, builder.category, builder.tenantId, stamped);
      deployments := deployments[deploymentId := deployment];
      r := Ok(deployment);
    }
  }

  /** The fluent builder CreateDeployment hands out. */
  class DeploymentBuilder {
    var name: string
    var category: string
    var tenantId: string
    var resources: seq<Resource>
    const service: Backend

    constructor (service: Backend)
      ensures this.service == service
      ensures name == "" && category == "" && tenantId == "" && resources == []
    {
      this.service := service;
      name, category, tenantId := "", "", "";
      resources := [];
    }

    method Name(name: string) returns (b: DeploymentBuilder)
      modifies this
      ensures b == this && this.name == name
      ensures category == old(category) && tenantId == old(tenantId) && resources == old(resources)
    {
      this.name := name;
      b := this;
    }

    method Category(category: string) returns (b: DeploymentBuilder)
      modifies this
      ensures b == this && this.category == category
      ensures name == old(name) && tenantId == old(tenantId) && resources == old(resources)
    {
      this.category := category;
      b := this;
    }

    method TenantId(tenantId: string) returns (b: DeploymentBuilder)
      modifies this
      ensures b == this && this.tenantId == tenantId
      ensures name == old(name) && category == old(category) && resources == old(resources)
    {
      this.tenantId := tenantId;
      b := this;
    }

    method AddResource(name: string, content: seq<byte>) returns (b: DeploymentBuilder)
      modifies this
      ensures b == this && resources == old(resources) + [Resource("", name, "", content, "")]
      ensures this.name == old(this.name) && category == old(category) && tenantId == old(tenantId)
    {
      resources := resources + [Resource("", name, "", content, "")];
      b := this;
    }

    method AddProcessDefinition(name: string, jsonContent: seq<byte>) returns (b: DeploymentBuilder)
      modifies this
      ensures b == this && resources == old(resources) + [Resource("", name, "", jsonContent, "")]
      ensures this.name == old(this.name) && category == old(category) && tenantId == old(tenantId)
    {
      b := AddResource(name, jsonContent);
    }

    /** Deploy: only the in-memory store knows how; any other service is refused. */
    method Deploy(deploymentId: string, resourceIds: seq<string>, uuids: seq<string>, now: Time)
      returns (r: Result<Deployment>)
      requires |resourceIds| == |uuids| == |resources|
      modifies this, if service.InMemory? then {service.impl} else {}
      ensures service.OtherBackend? ==> r == Err(Failure("unsupported service implementation")) && unchanged(this)
      ensures service.InMemory? ==>
        var impl := service.impl;
        var outcome := DeployOutcomeOf(impl.decode, old(impl.definitions), old(impl.deployments), old(name),
                                       old(category), old(tenantId), old(resources),
                                       deploymentId, resourceIds, uuids, now);
        && impl.definitions == outcome.definitions && impl.deployments == outcome.deployments
        && resources == outcome.resources && r == outcome.result
    {
      match service
      case OtherBackend =>
        r := Err(Failure("unsupported service implementation"));
      case InMemory(impl) =>
        r := impl.DeployInternal(this, deploymentId, resourceIds, uuids, now);
    }
  }
}
