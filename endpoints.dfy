/**
 * The REST path templates of one repository entity, all derived from the
 * immutable `basePath`.
 */
module Endpoints {
  import opened StringUtil

  /** Which endpoint of an entity. */
  datatype Kind =
    | List | Item | Create | Update | Delete | DeleteAll | Count | Exists
    | FindByField | FindOneByField | FindAndCountByField

  /** The endpoint templates of one entity. */
  datatype DatabaseApiEndpoints = DatabaseApiEndpoints(basePath: string) {
    function List(): string { basePath + "/items" }
    function Item(): string { basePath + "/items/:id" }
    function Create(): string { basePath + "/items" }
    function Update(): string { basePath + "/items/:id" }
    function Delete(): string { basePath + "/items/:id" }
    function DeleteAll(): string { basePath + "/items" }
    function Count(): string { basePath + "/count" }
    function Exists(): string { basePath + "/exists/:id" }
    function FindByField(): string { basePath + "/find/:field/:value" }
    function FindOneByField(): string { basePath + "/findOne/:field/:value" }
    function FindAndCountByField(): string { basePath + "/findAndCount/:field/:value" }

    /** The template of endpoint `k`. */
    function Endpoint(k: Kind): string {
      match k
      case List => List()
      case Item => Item()
      case Create => Create()
      case Update => Update()
      case Delete => Delete()
      case DeleteAll => DeleteAll()
      case Count => Count()
      case Exists => Exists()
      case FindByField => FindByField()
      case FindOneByField => FindOneByField()
      case FindAndCountByField => FindAndCountByField()
    }
  }

  const RepoPrefix: string := "/api/repo/"

  /** `new DatabaseApiEndpoints(entityName)`. */
  function ForEntity(entityName: string): (e: DatabaseApiEndpoints)
    ensures StartsWith(e.basePath, RepoPrefix) && e.basePath[|RepoPrefix|..] == entityName
    ensures StartsWith(e.basePath, "/")
  {
    var e := DatabaseApiEndpoints(RepoPrefix + entityName);
    assert e.basePath[..|RepoPrefix|] == RepoPrefix;
    e
  }

  /** The part of endpoint `k` after `basePath`; it always starts a new path segment. */
  function Suffix(k: Kind): (r: string)
    ensures |r| > 1 && r[0] == '/'
  {
    match k
    case List | Create | DeleteAll => "/items"
    case Item | Update | Delete => "/items/:id"
    case Count => "/count"
    case Exists => "/exists/:id"
    case FindByField => "/find/:field/:value"
    case FindOneByField => "/findOne/:field/:value"
    case FindAndCountByField => "/findAndCount/:field/:value"
  }

  /** Every template is `basePath` followed by the kind's suffix. */
  lemma EndpointSuffix(e: DatabaseApiEndpoints, k: Kind)
    ensures e.Endpoint(k) == e.basePath + Suffix(k)
  {
  }

  /** Three names for the collection path, and three for the item path. */
  lemma SharedTemplates(e: DatabaseApiEndpoints)
    ensures e.List() == e.Create() == e.DeleteAll() == e.basePath + "/items"
    ensures e.Item() == e.Update() == e.Delete() == e.List() + "/:id"
    ensures e.Exists() == e.basePath + "/exists/:id" && e.Count() == e.basePath + "/count"
  {
  }

  /** Every endpoint lies under `basePath + "/"`. */
  lemma EveryEndpointUnderBase(e: DatabaseApiEndpoints, k: Kind)
    ensures StartsWith(e.Endpoint(k), e.basePath + "/")
  {
    EndpointSuffix(e, k);
    SlashedSuffix(e.basePath, Suffix(k));
  }

  lemma SlashedSuffix(b: string, suffix: string)
    requires |suffix| > 0 && suffix[0] == '/'
    ensures StartsWith(b + suffix, b + "/")
  {
    assert (b + suffix)[..|b| + 1] == b + "/";
  }

  /**
   * The entity segment of a repository path: what follows "/api/repo/" up
   * to the next slash.
   */
  function EntityOf(path: string): string {
    if |path| < |RepoPrefix| then ""
    else
      var rest := path[|RepoPrefix|..];
      var i := IndexOf(rest, "/");
      if i < 0 then rest else rest[..i]
  }

  /** The segment after the repository prefix, up to the first slash, is the name. */
  lemma EntityOfRepoPath(entityName: string, suffix: string)
    requires '/' !in entityName && |suffix| > 0 && suffix[0] == '/'
    ensures EntityOf(RepoPrefix + entityName + suffix) == entityName
  {
    var path := RepoPrefix + entityName + suffix;
    var tail := suffix[1..];
    assert suffix == ['/'] + tail;
    var rest := entityName + ['/'] + tail;
    assert path == RepoPrefix + rest;
    assert path[|RepoPrefix|..] == rest;
    FirstSeparator(entityName, tail, '/');
    assert rest[..|entityName|] == entityName;
  }

  /** A slash-free entity name is recovered from any of its endpoints. */
  lemma EntityOfEndpoint(entityName: string, k: Kind)
    requires '/' !in entityName
    ensures EntityOf(ForEntity(entityName).Endpoint(k)) == entityName
  {
    var e := ForEntity(entityName);
    EndpointSuffix(e, k);
    assert e.basePath == RepoPrefix + entityName;
    EntityOfRepoPath(entityName, Suffix(k));
  }

  /** Endpoints of two different slash-free entities never coincide, whichever endpoints they are. */
  lemma DistinctEntitiesNeverCoincide(a: string, b: string, ka: Kind, kb: Kind)
    requires '/' !in a && '/' !in b
    ensures a != b ==> ForEntity(a).Endpoint(ka) != ForEntity(b).Endpoint(kb)
  {
    EntityOfEndpoint(a, ka);
    EntityOfEndpoint(b, kb);
  }

  /** The three registered entities. */
  const FormInstanceEndpoints: DatabaseApiEndpoints := ForEntity("form-instances")
  const FormEndpoints: DatabaseApiEndpoints := ForEntity("forms")
  const PatientEndpoints: DatabaseApiEndpoints := ForEntity("patients")

  lemma RegisteredEndpointsDisjoint(k1: Kind, k2: Kind)
    ensures FormInstanceEndpoints.Endpoint(k1) != FormEndpoints.Endpoint(k2)
    ensures FormInstanceEndpoints.Endpoint(k1) != PatientEndpoints.Endpoint(k2)
    ensures FormEndpoints.Endpoint(k1) != PatientEndpoints.Endpoint(k2)
  {
    DistinctEntitiesNeverCoincide("form-instances", "forms", k1, k2);
    DistinctEntitiesNeverCoincide("form-instances", "patients", k1, k2);
    DistinctEntitiesNeverCoincide("forms", "patients", k1, k2);
  }
}
