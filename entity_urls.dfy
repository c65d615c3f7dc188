/**
 * The URLs the entity client requests: endpoint templates with `:id`,
 * `:field` and `:value` filled in by first-occurrence replacement.
 */
module EntityUrls {
  import opened StringUtil
  import opened Messages
  import opened Endpoints
  import ApiBase

  /** `value.toString()` for the string, boolean and integer values a field lookup takes. */
  function ScalarToString(v: Scalar): string {
    match v
    case Text(s) => s
    case Flag(b) => if b then "true" else "false"
    case Number(n) => IntToString(n)
  }

  /** The client of one entity; each member is the URL its method of the same name fetches. */
  datatype EntityApiClient = EntityApiClient(endpoints: DatabaseApiEndpoints) {
    function ListUrl(): string { endpoints.List() }
    function GetItemUrl(id: string): string { ReplaceFirst(endpoints.Item(), ":id", id) }
    function CreateUrl(): string { endpoints.Create() }
    function UpdateUrl(id: string): string { ReplaceFirst(endpoints.Update(), ":id", id) }
    function DeleteUrl(id: string): string { ReplaceFirst(endpoints.Delete(), ":id", id) }
    function DeleteAllUrl(): string { endpoints.DeleteAll() }
    function CountUrl(): string { endpoints.Count() }
    function ExistsUrl(id: string): string { ReplaceFirst(endpoints.Exists(), ":id", id) }
    function FindByFieldUrl(field: string, value: Scalar): string {
      ReplaceFirst(ReplaceFirst(endpoints.FindByField(), ":field", field), ":value", ScalarToString(value))
    }
    function FindOneByFieldUrl(field: string, value: Scalar): string {
      ReplaceFirst(ReplaceFirst(endpoints.FindOneByField(), ":field", field), ":value", ScalarToString(value))
    }
    function FindAndCountByFieldUrl(field: string, value: Scalar): string {
      ReplaceFirst(ReplaceFirst(endpoints.FindAndCountByField(), ":field", field), ":value", ScalarToString(value))
    }
    function ListWithPaginationUrl(page: int, limit: int): string {
      endpoints.List() + "?page=" + IntToString(page) + "&limit=" + IntToString(limit)
    }
  }

  /** A placeholder after a colon-free prefix is the first one. */
  lemma FillSlot(prefix: string, slot: string, rest: string, filler: string)
    requires ':' !in prefix && |slot| > 0 && slot[0] == ':'
    ensures ReplaceFirst(prefix + slot + rest, slot, filler) == prefix + filler + rest
  {
    NoOccurrenceInFreePrefix(prefix, slot, slot + rest, ':');
    assert prefix + (slot + rest) == prefix + slot + rest;
    ReplaceFirstAt(prefix, slot, rest, filler);
  }

  /** Filling the `:id` at the end of a colon-free path. */
  lemma IdSlot(path: string, id: string)
    requires ':' !in path
    ensures ReplaceFirst(path + ":id", ":id", id) == path + id
  {
    FillSlot(path, ":id", "", id);
    assert path + ":id" + "" == path + ":id";
    assert path + id + "" == path + id;
  }

  /** A colon-free entity name gives a colon-free base path. */
  lemma ColonFreeBase(entityName: string)
    requires ':' !in entityName
    ensures ':' !in ForEntity(entityName).basePath
  {
    assert ForEntity(entityName).basePath == RepoPrefix + entityName;
  }

  /** `getItem`, `update` and `delete` on a colon-free entity: the id takes the placeholder's place. */
  lemma ItemUrls(entityName: string, id: string)
    requires ':' !in entityName
    ensures var c := EntityApiClient(ForEntity(entityName));
      c.GetItemUrl(id) == c.UpdateUrl(id) == c.DeleteUrl(id) == c.endpoints.basePath + "/items/" + id
  {
    var e := ForEntity(entityName);
    ColonFreeBase(entityName);
    assert ':' !in e.basePath + "/items/";
    IdSlot(e.basePath + "/items/", id);
    assert e.Item() == e.basePath + "/items/" + ":id";
  }

  /** `exists` on a colon-free entity. */
  lemma ExistsUrlShape(entityName: string, id: string)
    requires ':' !in entityName
    ensures var e := ForEntity(entityName);
      EntityApiClient(e).ExistsUrl(id) == e.basePath + "/exists/" + id
  {
    var e := ForEntity(entityName);
    ColonFreeBase(entityName);
    assert ':' !in e.basePath + "/exists/";
    IdSlot(e.basePath + "/exists/", id);
    assert e.Exists() == e.basePath + "/exists/" + ":id";
  }

  /**
   * After the field is written in, the first `:value` is the template's own
   * placeholder, provided the field does not itself contain `:value`.
   */
  lemma NoValueBeforeSlot(prefix: string, field: string)
    requires ':' !in prefix && !Contains(field, ":value")
    ensures forall j :: 0 <= j < |prefix + field + "/"| ==> !OccursAt(prefix + field + "/" + ":value", ":value", j)
  {
    var s := prefix + field + "/" + ":value";
    var slash := |prefix| + |field|;
    assert s[slash] == '/';
    forall j | 0 <= j < |prefix + field + "/"|
      ensures !OccursAt(s, ":value", j)
    {
      if j < |prefix| {
        assert s[j] == prefix[j] != ':';
      } else if j + 6 <= slash {
        var k := j - |prefix|;
        assert s[j..j + 6] == field[k..k + 6];
        assert !OccursAt(field, ":value", k);
      } else if j < slash {
        if j + 6 <= |s| {
          assert s[j..j + 6][slash - j] == '/';
        }
      } else {
        assert s[j] == '/';
      }
    }
  }

  /** A `find*` template: `lead` is the colon-free path up to the `:field` placeholder. */
  lemma FindUrl(lead: string, field: string, value: string)
    requires ':' !in lead && !Contains(field, ":value")
    ensures ReplaceFirst(ReplaceFirst(lead + ":field/:value", ":field", field), ":value", value)
      == lead + field + "/" + value
  {
    assert lead + ":field/:value" == lead + ":field" + "/:value";
    FillSlot(lead, ":field", "/:value", field);
    var filled := lead + field + "/";
    assert lead + field + "/:value" == filled + ":value" + "";
    NoValueBeforeSlot(lead, field);
    assert filled + ":value" + "" == lead + field + "/" + ":value";
    ReplaceFirstAt(filled, ":value", "", value);
    assert filled + value + "" == lead + field + "/" + value;
  }

  /** `findByField` on a colon-free entity: the field and the value fill the two segments after "find". */
  lemma FindByFieldUrlShape(entityName: string, field: string, value: Scalar)
    requires ':' !in entityName && !Contains(field, ":value")
    ensures var e := ForEntity(entityName);
      EntityApiClient(e).FindByFieldUrl(field, value) == e.basePath + "/find/" + field + "/" + ScalarToString(value)
  {
    var e := ForEntity(entityName);
    ColonFreeBase(entityName);
    FindLead(e.basePath, "/find/", e.FindByField(), field, ScalarToString(value));
  }

  /** `findOneByField`, likewise after "findOne". */
  lemma FindOneByFieldUrlShape(entityName: string, field: string, value: Scalar)
    requires ':' !in entityName && !Contains(field, ":value")
    ensures var e := ForEntity(entityName);
      EntityApiClient(e).FindOneByFieldUrl(field, value) == e.basePath + "/findOne/" + field + "/" + ScalarToString(value)
  {
    var e := ForEntity(entityName);
    ColonFreeBase(entityName);
    FindLead(e.basePath, "/findOne/", e.FindOneByField(), field, ScalarToString(value));
  }

  /** `findAndCountByField`, likewise after "findAndCount". */
  lemma FindAndCountByFieldUrlShape(entityName: string, field: string, value: Scalar)
    requires ':' !in entityName && !Contains(field, ":value")
    ensures var e := ForEntity(entityName);
      EntityApiClient(e).FindAndCountByFieldUrl(field, value) == e.basePath + "/findAndCount/" + field + "/" + ScalarToString(value)
  {
    var e := ForEntity(entityName);
    ColonFreeBase(entityName);
    FindLead(e.basePath, "/findAndCount/", e.FindAndCountByField(), field, ScalarToString(value));
  }

  /** `FindUrl` for a template written as `base + segment + ":field/:value"`. */
  lemma FindLead(base: string, segment: string, template: string, field: string, value: string)
    requires ':' !in base && ':' !in segment && !Contains(field, ":value")
    requires template == base + segment + ":field/:value"
    ensures ReplaceFirst(ReplaceFirst(template, ":field", field), ":value", value) == base + segment + field + "/" + value
  {
    FindUrl(base + segment, field, value);
  }

  /** A rendered integer has no '&'. */
  lemma NoAmpersand(n: int)
    ensures '&' !in IntToString(n)
  {
    var s := IntToString(n);
    if n < 0 {
      assert s == "-" + NatToString(-n);
      assert forall i :: 1 <= i < |s| ==> s[i] == NatToString(-n)[i - 1];
    }
  }

  /** The pagination URL after the list path and "?page=": the page, '&', and "limit=" with the limit. */
  lemma PaginationQuery(c: EntityApiClient, page: int, limit: int)
    ensures var head := c.endpoints.List() + "?page=";
      |head| <= |c.ListWithPaginationUrl(page, limit)| &&
      c.ListWithPaginationUrl(page, limit)[|head|..] == IntToString(page) + ['&'] + ("limit=" + IntToString(limit))
  {
    var head := c.endpoints.List() + "?page=";
    var query := IntToString(page) + ['&'] + ("limit=" + IntToString(limit));
    assert c.ListWithPaginationUrl(page, limit) == head + query;
  }

  /** Different pages or limits give different URLs: the query determines both numbers. */
  lemma PaginationInjective(c: EntityApiClient, p1: int, l1: int, p2: int, l2: int)
    requires c.ListWithPaginationUrl(p1, l1) == c.ListWithPaginationUrl(p2, l2)
    ensures p1 == p2 && l1 == l2
  {
    var t1 := "limit=" + IntToString(l1);
    var t2 := "limit=" + IntToString(l2);
    PaginationQuery(c, p1, l1);
    PaginationQuery(c, p2, l2);
    NoAmpersand(p1);
    NoAmpersand(p2);
    SeparatorSplitUnique(IntToString(p1), t1, IntToString(p2), t2, '&');
    IntToStringInjective(p1, p2);
    assert t1[6..] == IntToString(l1) && t2[6..] == IntToString(l2);
    IntToStringInjective(l1, l2);
  }

  /** A path that starts with a slash still does after anything is appended. */
  lemma RootedConcat(path: string, more: string)
    requires StartsWith(path, "/")
    ensures StartsWith(path + more, "/")
  {
    assert (path + more)[..1] == path[..1];
  }

  /**
   * What reaches the network for the collection endpoints: the paths already
   * start with a slash, so joining them to the base adds nothing in between.
   */
  lemma RequestedCollectionUrls(baseUrl: string, entityName: string)
    ensures var c := EntityApiClient(ForEntity(entityName));
      ApiBase.MakeUrl(baseUrl, c.ListUrl()) == baseUrl + "/api/repo/" + entityName + "/items" &&
      ApiBase.MakeUrl(baseUrl, c.CreateUrl()) == ApiBase.MakeUrl(baseUrl, c.DeleteAllUrl()) == ApiBase.MakeUrl(baseUrl, c.ListUrl()) &&
      ApiBase.MakeUrl(baseUrl, c.CountUrl()) == baseUrl + "/api/repo/" + entityName + "/count"
  {
    var e := ForEntity(entityName);
    assert e.basePath == RepoPrefix + entityName;
    RootedConcat(e.basePath, "/items");
    RootedConcat(e.basePath, "/count");
  }

  /** What reaches the network for `getItem` on a colon-free entity. */
  lemma RequestedItemUrl(baseUrl: string, entityName: string, id: string)
    requires ':' !in entityName
    ensures ApiBase.MakeUrl(baseUrl, EntityApiClient(ForEntity(entityName)).GetItemUrl(id)) ==
      baseUrl + "/api/repo/" + entityName + "/items/" + id
  {
    var e := ForEntity(entityName);
    ItemUrls(entityName, id);
    assert e.basePath == RepoPrefix + entityName;
    RootedConcat(e.basePath, "/items/");
    RootedConcat(e.basePath + "/items/", id);
  }
}
