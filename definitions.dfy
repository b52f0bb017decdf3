/**
 * The records both repository implementations keep (resources, deployments,
 * process definitions), the validation of a process-definition document,
 * the id format and version numbering of definitions, and the lookups the
 * two stores share.
 */
module Definitions {
  import opened Common

  /** A top-level JSON value, as `json.Unmarshal` leaves it in a `map[string]interface{}`. */
  datatype JsonValue = JString(text: string) | JNumber | JBool | JNull | JArray | JObject

  /** A decoded JSON object: its top-level keys and their values. */
  type Document = map<string, JsonValue>

  /** `json.Unmarshal` into `map[string]interface{}`: the object, or `None` for a syntax error. */
  type Decoder = seq<byte> -> Option<Document>

  datatype Resource = Resource(id: string, name: string, deploymentId: string, content: seq<byte>, contentType: string)

  datatype Deployment = Deployment(
    id: string, name: string, deployTime: Time, category: string, tenantId: string, resources: seq<Resource>)

  datatype ProcessDefinition = ProcessDefinition(
    id: string, key: string, name: string, description: string, version: int,
    category: string, deploymentId: string, resourceName: string, tenantId: string,
    suspended: bool, startFormKey: string, hasStartFormKey: bool, hasGraphicalNotation: bool)

  type Definitions = map<string, ProcessDefinition>

  // ------------------------------------------------------------------
  // Validation of a process-definition document
  // ------------------------------------------------------------------

  /** The keys a process definition must have, in the order they are checked. */
  const RequiredFields: seq<string> := ["id", "name", "nodes", "edges"]

  /** The error for a missing required key. */
  function MissingField(field: string): Error
  {
    Failure("process definition must have " + (if field == "id" || field == "edges" then "an" else "a")
            + " '" + field + "' field")
  }

  /**
   * ValidateProcessDefinition on the decoded content: presence (not type) of
   * the required keys, the first missing one reported.
   */
  function Validate(parsed: Option<Document>): Outcome
  {
    match parsed
    case None => Fail(Wrapped("invalid JSON", DecodeError))
    case Some(doc) =>
      if "id" !in doc then Fail(MissingField("id"))
      else if "name" !in doc then Fail(MissingField("name"))
      else if "nodes" !in doc then Fail(MissingField("nodes"))
      else if "edges" !in doc then Fail(MissingField("edges"))
      else Pass
  }

  /**
   * Content that does not decode is rejected as invalid JSON; a document
   * passes exactly when it has every required key, and otherwise the error
   * names the first required key it lacks.
   */
  lemma ValidateReportsFirstMissing(parsed: Option<Document>)
    ensures parsed.None? ==> Validate(parsed) == Fail(Wrapped("invalid JSON", DecodeError))
    ensures parsed.Some? ==> (Validate(parsed) == Pass <==> forall f :: f in RequiredFields ==> f in parsed.value)
    ensures parsed.Some? && Validate(parsed).Fail? ==>
      exists j :: 0 <= j < |RequiredFields| && RequiredFields[j] !in parsed.value
        && (forall i :: 0 <= i < j ==> RequiredFields[i] in parsed.value)
        && Validate(parsed).error == MissingField(RequiredFields[j])
  {
    assert RequiredFields[0] == "id" && RequiredFields[1] == "name";
    assert RequiredFields[2] == "nodes" && RequiredFields[3] == "edges";
  }

  /** `doc[field].(string)` with the ok flag dropped: "" unless the value is a string. */
  function StringField(doc: Document, field: string): string
  {
    if field in doc && doc[field].JString? then doc[field].text else ""
  }

  // ------------------------------------------------------------------
  // Definition ids: fmt.Sprintf("%s:%d:%s", key, version, uuid)
  // ------------------------------------------------------------------

  function DigitChar(d: nat): char
    requires d < 10
  {
    "0123456789"[d]
  }

  /** `%d` of a non-negative integer. */
  function NatToString(n: nat): string
    decreases n
  {
    if n < 10 then [DigitChar(n)] else NatToString(n / 10) + [DigitChar(n % 10)]
  }

  /** `%d` of an integer. */
  function IntToString(i: int): string
  {
    if i < 0 then "-" + NatToString(-i) else NatToString(i)
  }

  function DefinitionId(key: string, version: int, uuid: string): string
  {
    key + ":" + IntToString(version) + ":" + uuid
  }

  /** The canonical text form of a UUID is 36 characters long. */
  const UuidLength := 36

  predicate EndsWith(s: string, suffix: string)
  {
    |suffix| <= |s| && s[|s| - |suffix|..] == suffix
  }

  /**
   * What `uuid.New()` guarantees of the identifiers a deployment draws for its
   * definitions: canonical length, pairwise distinct, and not the tail of any
   * definition id already registered.
   */
  predicate FreshUuids(defs: Definitions, uuids: seq<string>)
  {
    (forall j :: 0 <= j < |uuids| ==> |uuids[j]| == UuidLength)
    && (forall j, id :: 0 <= j < |uuids| && id in defs ==> !EndsWith(id, uuids[j]))
    && (forall i, j :: 0 <= i < j < |uuids| ==> uuids[i] != uuids[j])
  }

  lemma DefinitionIdEndsWithUuid(key: string, version: int, uuid: string)
    ensures EndsWith(DefinitionId(key, version, uuid), uuid)
  {
    var prefix := key + ":" + IntToString(version) + ":";
    assert DefinitionId(key, version, uuid) == prefix + uuid;
    assert (prefix + uuid)[|prefix|..] == uuid;
  }

  /** Two definition ids drawn with different UUIDs of the same length never collide. */
  lemma {:induction false} DefinitionIdsDistinct(k1: string, v1: int, u1: string, k2: string, v2: int, u2: string)
    requires |u1| == |u2| && u1 != u2
    ensures DefinitionId(k1, v1, u1) != DefinitionId(k2, v2, u2)
    ensures !EndsWith(DefinitionId(k1, v1, u1), u2)
  {
    DefinitionIdEndsWithUuid(k1, v1, u1);
    DefinitionIdEndsWithUuid(k2, v2, u2);
  }

  // ------------------------------------------------------------------
  // Version numbering
  // ------------------------------------------------------------------

  /** The largest version of `key` among `ids`, or 0 when there is none (or all are below 0). */
  ghost function MaxVersionAmong(defs: Definitions, key: string, ids: set<string>): int
    requires ids <= defs.Keys
    decreases ids
  {
    if ids == {} then 0
    else
      var id :| id in ids;
      var rest := MaxVersionAmong(defs, key, ids - {id});
      if defs[id].key == key && defs[id].version > rest then defs[id].version else rest
  }

  /** The version the next definition of `key` receives. */
  ghost function NextVersion(defs: Definitions, key: string): int
  {
    1 + MaxVersionAmong(defs, key, defs.Keys)
  }

  /**
   * `v` is the least integer that is at least 1 and above every version of
   * `key` among `ids`.
   */
  ghost predicate VersionAbove(defs: Definitions, key: string, ids: set<string>, v: int)
  {
    ids <= defs.Keys
    && v >= 1
    && (forall id :: id in ids && defs[id].key == key ==> defs[id].version < v)
    && (v == 1 || exists id :: id in ids && defs[id].key == key && defs[id].version == v - 1)
  }

  lemma {:induction false} MaxVersionAmongIsAbove(defs: Definitions, key: string, ids: set<string>)
    requires ids <= defs.Keys
    ensures VersionAbove(defs, key, ids, 1 + MaxVersionAmong(defs, key, ids))
    decreases ids
  {
    if ids != {} {
      var id :| id in ids && MaxVersionAmong(defs, key, ids) ==
        (var rest := MaxVersionAmong(defs, key, ids - {id});
         if defs[id].key == key && defs[id].version > rest then defs[id].version else rest);
      MaxVersionAmongIsAbove(defs, key, ids - {id});
      var rest := MaxVersionAmong(defs, key, ids - {id});
      if !(defs[id].key == key && defs[id].version > rest) && rest + 1 != 1 {
        var w :| w in ids - {id} && defs[w].key == key && defs[w].version == rest;
        assert w in ids;
      }
    }
  }

  lemma {:induction false} VersionAboveUnique(defs: Definitions, key: string, ids: set<string>, v: int, w: int)
    requires VersionAbove(defs, key, ids, v) && VersionAbove(defs, key, ids, w)
    ensures v == w
  {
    if w != 1 {
      var id :| id in ids && defs[id].key == key && defs[id].version == w - 1;
      assert w - 1 < v;
    }
    if v != 1 {
      var id :| id in ids && defs[id].key == key && defs[id].version == v - 1;
      assert v - 1 < w;
    }
  }

  /** NextVersion is exactly the least version above every existing version of the key. */
  lemma {:induction false} NextVersionCharacterized(defs: Definitions, key: string, v: int)
    ensures VersionAbove(defs, key, defs.Keys, v) <==> v == NextVersion(defs, key)
  {
    MaxVersionAmongIsAbove(defs, key, defs.Keys);
    if VersionAbove(defs, key, defs.Keys, v) {
      VersionAboveUnique(defs, key, defs.Keys, v, NextVersion(defs, key));
    }
  }

  /**
   * Registering a definition `d` under a fresh id moves the next version of
   * its key to `d.version + 1` when `d` is at or above it, and leaves every
   * other key's next version alone: one step of the Go version loop.
   */
  lemma {:induction false} NextVersionAfterInsert(defs: Definitions, d: ProcessDefinition, key: string)
    requires d.id !in defs
    ensures NextVersion(defs[d.id := d], key) ==
      if d.key == key && d.version >= NextVersion(defs, key) then d.version + 1 else NextVersion(defs, key)
  {
    var defs' := defs[d.id := d];
    var v := NextVersion(defs, key);
    NextVersionCharacterized(defs, key, v);
    var v' := if d.key == key && d.version >= v then d.version + 1 else v;
    assert defs'.Keys == defs.Keys + {d.id};
    forall id | id in defs'.Keys && defs'[id].key == key
      ensures defs'[id].version < v'
    {
      if id != d.id { assert defs'[id] == defs[id]; }
    }
    if v' != 1 {
      if d.key == key && d.version >= v {
        assert defs'[d.id].version == v' - 1;
      } else {
        var w :| w in defs.Keys && defs[w].key == key && defs[w].version == v - 1;
        assert w in defs'.Keys && defs'[w] == defs[w];
      }
    }
    assert VersionAbove(defs', key, defs'.Keys, v');
    NextVersionCharacterized(defs', key, v');
  }

  /**
   * The version loop of deployInternal: `version := 1`, then every existing
   * definition of the key at or above `version` pushes it one past its own.
   */
  method ComputeVersion(defs: Definitions, key: string) returns (version: int)
    ensures version == NextVersion(defs, key)
    ensures version >= 1
    ensures forall id :: id in defs && defs[id].key == key ==> defs[id].version < version
    ensures version == 1 || exists id :: id in defs && defs[id].key == key && defs[id].version == version - 1
  {
    version := 1;
    var pending := defs.Keys;
    while pending != {}
      invariant pending <= defs.Keys
      invariant VersionAbove(defs, key, defs.Keys - pending, version)
      decreases pending
    {
      var id :| id in pending;
      if defs[id].key == key && defs[id].version >= version {
        version := defs[id].version + 1;
      }
      pending := pending - {id};
    }
    assert defs.Keys - pending == defs.Keys;
    NextVersionCharacterized(defs, key, version);
  }

  // ------------------------------------------------------------------
  // Lookups shared by both repository implementations
  // ------------------------------------------------------------------

  /** The loop of GetProcessDefinitionByKey: keep a definition of the key with the highest version. */
  method LatestByKey(defs: Definitions, key: string) returns (r: Result<ProcessDefinition>)
    ensures r.Err? <==> forall id :: id in defs ==> defs[id].key != key
    ensures r.Err? ==> r.error == Failure("process definition not found with key: " + key)
    ensures r.Ok? ==> r.value.key == key && r.value in defs.Values
    ensures r.Ok? ==> forall id :: id in defs && defs[id].key == key ==> defs[id].version <= r.value.version
  {
    var latest: Option<ProcessDefinition> := None;
    var pending := defs.Keys;
    while pending != {}
      invariant pending <= defs.Keys
      invariant latest.None? ==> forall id :: id in defs.Keys - pending ==> defs[id].key != key
      invariant latest.Some? ==> latest.value.key == key && latest.value in defs.Values
      invariant latest.Some? ==>
        forall id :: id in defs.Keys - pending && defs[id].key == key ==> defs[id].version <= latest.value.version
      decreases pending
    {
      var id :| id in pending;
      var def := defs[id];
      if def.key == key {
        if latest.None? || def.version > latest.value.version {
          latest := Some(def);
        }
      }
      pending := pending - {id};
    }
    assert defs.Keys - pending == defs.Keys;
    if latest.None? {
      r := Err(Failure("process definition not found with key: " + key));
    } else {
      r := Ok(latest.value);
    }
  }

  /** `resources[j]` is the first resource called `name`. */
  ghost predicate FirstNamed(resources: seq<Resource>, name: string, j: int)
  {
    0 <= j < |resources| && resources[j].name == name
    && forall i :: 0 <= i < j ==> resources[i].name != name
  }

  /** The loop of GetProcessModel: the content of the first resource with the given name. */
  method FindResourceContent(resources: seq<Resource>, name: string) returns (r: Option<seq<byte>>)
    ensures r.None? <==> forall j :: 0 <= j < |resources| ==> resources[j].name != name
    ensures r.Some? ==> exists j :: FirstNamed(resources, name, j) && r.value == resources[j].content
  {
    var j := 0;
    while j < |resources|
      invariant 0 <= j <= |resources|
      invariant forall i :: 0 <= i < j ==> resources[i].name != name
    {
      if resources[j].name == name {
        assert FirstNamed(resources, name, j);
        return Some(resources[j].content);
      }
      j := j + 1;
    }
    r := None;
  }

  /** The definitions that survive a cascading delete of a deployment. */
  function OutsideDeployment(defs: Definitions, deploymentId: string): (kept: Definitions)
    ensures forall id :: id in kept <==> id in defs && defs[id].deploymentId != deploymentId
    ensures forall id :: id in kept ==> kept[id] == defs[id]
  {
    map id | id in defs && defs[id].deploymentId != deploymentId :: defs[id]
  }
}
