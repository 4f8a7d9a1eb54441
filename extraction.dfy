/** Reading lead pages out of a data-source query response: the property
    strategy registry, the page loop that accumulates property values and
    validates one record per page, and the choice of the data source named
    "Leads" in a database description. */
module Extraction {
  import opened Common
  import opened LeadModel

  // ---------------------------------------------------------------------
  // Strategies and registry

  /** An extraction rule: read the payload stored under `key` in the property
      data, defaulting to `None` (`Simple`) or to `[]` (`ListOf`). */
  datatype Strategy = Simple(key: string) | ListOf(key: string)

  /** `simple_strategy`: the payload under `key`, or `None` when absent. */
  function SimpleStrategy(propData: map<string, Json>, key: string): (r: Json)
    ensures key in propData ==> r == propData[key]
    ensures key !in propData ==> r == JNull
  {
    Get(propData, key)
  }

  /** `list_strategy`: the payload under `key`, or `[]` when absent. */
  function ListStrategy(propData: map<string, Json>, key: string): (r: Json)
    ensures key in propData ==> r == propData[key]
    ensures key !in propData ==> r == JArr([])
  {
    GetOr(propData, key, JArr([]))
  }

  function Apply(s: Strategy, propData: map<string, Json>): Json {
    match s
    case Simple(k) => SimpleStrategy(propData, k)
    case ListOf(k) => ListStrategy(propData, k)
  }

  /** A strategy registry: property type tag to extraction rule. */
  type Registry = map<string, Strategy>

  /** `STRATEGIES_PROPERTIES`: type tag to extraction rule. */
  const STRATEGIES_PROPERTIES: Registry := map[
    "select" := Simple("select"),
    "status" := Simple("status"),
    "date" := Simple("date"),
    "number" := Simple("number"),
    "email" := Simple("email"),
    "phone_number" := Simple("phone_number"),
    "url" := Simple("url"),
    "rich_text" := ListOf("rich_text"),
    "title" := ListOf("title"),
    "people" := ListOf("people")
  ]

  const SCALAR_TAGS: set<string> := {"select", "status", "date", "number", "email", "phone_number", "url"}
  const LIST_TAGS: set<string> := {"rich_text", "title", "people"}

  /** The registry holds exactly ten tags; each reads the key equal to its
      own tag; seven are scalar and three are lists. */
  lemma RegistryShape()
    ensures STRATEGIES_PROPERTIES.Keys == SCALAR_TAGS + LIST_TAGS
    ensures forall t | t in STRATEGIES_PROPERTIES :: STRATEGIES_PROPERTIES[t].key == t
    ensures forall t | t in STRATEGIES_PROPERTIES :: STRATEGIES_PROPERTIES[t].ListOf? <==> t in LIST_TAGS
  {
    assert forall t | t in STRATEGIES_PROPERTIES :: t in SCALAR_TAGS + LIST_TAGS;
    assert forall t | t in SCALAR_TAGS + LIST_TAGS :: t in STRATEGIES_PROPERTIES;
  }

  /** `strategy_properties[prop_data.get("type")](prop_data)` for one
      property, or `None` when that raises: the data is not a dict, its
      `type` is missing, or its type has no rule in the registry. */
  function ExtractProperty(registry: Registry, propData: Json): (r: Option<Json>)
    ensures r.Some? <==> propData.JObj? && Get(propData.fields, "type").JStr?
                         && Get(propData.fields, "type").s in registry
    ensures r.Some? ==> r.value == Apply(registry[propData.fields["type"].s], propData.fields)
  {
    match propData
    case JObj(m) =>
      (match Get(m, "type")
       case JStr(t) => if t in registry then Some(Apply(registry[t], m)) else None
       case _ => None)
    case _ => None
  }

  /** With the default registry a property is read exactly when its type is
      one of the ten tags, and the payload comes from the key named by it. */
  lemma DefaultRegistryDispatch(m: map<string, Json>, t: string)
    requires Get(m, "type") == JStr(t)
    ensures ExtractProperty(STRATEGIES_PROPERTIES, JObj(m)).Some? <==> t in SCALAR_TAGS + LIST_TAGS
    ensures t in SCALAR_TAGS ==> ExtractProperty(STRATEGIES_PROPERTIES, JObj(m)) == Some(Get(m, t))
    ensures t in LIST_TAGS ==> ExtractProperty(STRATEGIES_PROPERTIES, JObj(m)) == Some(GetOr(m, t, JArr([])))
  {
    RegistryShape();
  }

  // ---------------------------------------------------------------------
  // The page loop, as a specification

  /** The payloads of a page's properties, each read by the rule of its
      type; `None` when some property has no rule. */
  function ReadProperties(registry: Registry, props: map<string, Json>): Option<map<string, Json>> {
    if forall k | k in props :: ExtractProperty(registry, props[k]).Some? then
      Some(map k | k in props :: ExtractProperty(registry, props[k]).value)
    else None
  }

  /** One pass of the inner loop plus `values["id"] = page["id"]`: the shared
      accumulator after one page. The properties are read before the id, so
      a bad property wins over a missing id. */
  function PageStep(registry: Registry, values: map<string, Json>, page: Json)
    : (r: Result<map<string, Json>>)
  {
    if !(page.JObj? && "properties" in page.fields && page.fields["properties"].JObj?) then Err(MalformedInput)
    else match ReadProperties(registry, page.fields["properties"].fields)
      case None => Err(UnsupportedPropertyType)
      case Some(read) =>
        if "id" !in page.fields then Err(MalformedInput)
        else Ok((values + read)["id" := page.fields["id"]])
  }

  /** What builds one record from the accumulator: `NotionPropertyValues(**values)`
      is `Validate`; the loop's own properties hold for any such function. */
  type Validator = map<string, Json> -> Result<NotionPropertyValues>

  /** The records the loop appends for `pages`, starting from accumulator
      `values`; the first failure aborts the whole list. */
  function ExtractFrom(validate: Validator, registry: Registry,
                       pages: seq<Json>, values: map<string, Json>)
    : Result<seq<NotionPropertyValues>>
  {
    if pages == [] then Ok([])
    else match PageStep(registry, values, pages[0])
      case Err(e) => Err(e)
      case Ok(next) =>
        match validate(next)
        case Err(e) => Err(e)
        case Ok(rec) =>
          match ExtractFrom(validate, registry, pages[1..], next)
          case Err(e) => Err(e)
          case Ok(recs) => Ok([rec] + recs)
  }

  /** The pages under `notion_properties["results"]`. */
  function Results(response: Json): Result<seq<Json>> {
    if response.JObj? && "results" in response.fields && Iterated(response.fields["results"]).Some? then
      Ok(Iterated(response.fields["results"]).value)
    else Err(MalformedInput)
  }

  /** `extract_property_values`, with the accumulator created once before the loop. */
  function Extracted(registry: Registry, response: Json): Result<seq<NotionPropertyValues>> {
    match Results(response)
    case Err(e) => Err(e)
    case Ok(pages) => ExtractFrom(Validate, registry, pages, map[])
  }

  /** The accumulator after the first `i` pages (when none of them failed). */
  function Accumulated(registry: Registry, pages: seq<Json>, values: map<string, Json>, i: nat)
    : Result<map<string, Json>>
    requires i <= |pages|
  {
    if i == 0 then Ok(values)
    else match PageStep(registry, values, pages[0])
      case Err(e) => Err(e)
      case Ok(next) => Accumulated(registry, pages[1..], next, i - 1)
  }

  // ---------------------------------------------------------------------
  // The page loop, as the source runs it

  /** The inner loop of `extract_property_values` over one page's
      properties, writing each payload into the shared accumulator; `None`
      when a property has no rule (the lookup raises). */
  method ReadPageProperties(registry: Registry, values: map<string, Json>, props: map<string, Json>)
    returns (r: Option<map<string, Json>>)
    ensures r.Some? <==> forall k | k in props :: ExtractProperty(registry, props[k]).Some?
    ensures r.Some? ==> ReadProperties(registry, props).Some?
                        && r.value == values + ReadProperties(registry, props).value
  {
    var acc := values;
    var keys := props.Keys;
    while keys != {}
      invariant keys <= props.Keys
      invariant forall k | k in props.Keys - keys :: ExtractProperty(registry, props[k]).Some?
      invariant acc.Keys == values.Keys + (props.Keys - keys)
      invariant forall k | k in props.Keys - keys :: acc[k] == ExtractProperty(registry, props[k]).value
      invariant forall k | k in values.Keys - (props.Keys - keys) :: acc[k] == values[k]
      decreases keys
    {
      var propKey :| propKey in keys;
      var propData := props[propKey];
      var rule: Strategy;
      if propData.JObj? && Get(propData.fields, "type").JStr? && Get(propData.fields, "type").s in registry {
        rule := registry[Get(propData.fields, "type").s];
      } else {
        return None;
      }
      acc := acc[propKey := Apply(rule, propData.fields)];
      keys := keys - {propKey};
    }
    assert props.Keys - keys == props.Keys;
    var read := ReadProperties(registry, props).value;
    MergeByKey(values, read, acc);
    r := Some(acc);
  }

  /** A map that holds `read`'s entries and, elsewhere, `values`' entries is
      `values + read`. */
  lemma MergeByKey(values: map<string, Json>, read: map<string, Json>, acc: map<string, Json>)
    requires acc.Keys == values.Keys + read.Keys
    requires forall k | k in read :: acc[k] == read[k]
    requires forall k | k in values.Keys - read.Keys :: acc[k] == values[k]
    ensures acc == values + read
  {
  }

  /** `extract_property_values`: the response must hold a `results` list;
      the page loop then runs from an empty accumulator, building records
      with `NotionPropertyValues`. */
  method ExtractPropertyValues(notionProperties: Json, registry: Registry)
    returns (r: Result<seq<NotionPropertyValues>>)
    ensures r == Extracted(registry, notionProperties)
  {
    if !(notionProperties.JObj? && "results" in notionProperties.fields
         && Iterated(notionProperties.fields["results"]).Some?) {
      return Err(MalformedInput);
    }
    r := ExtractPages(Validate, registry, Iterated(notionProperties.fields["results"]).value);
  }

  /** The outer loop of `extract_property_values`, for record constructor
      `validate`: for each page, the inner loop over its properties writes
      into the one shared `values` map, then `values["id"] = page["id"]`
      and one validated record is appended. */
  method ExtractPages(validate: Validator, registry: Registry,
                      pages: seq<Json>)
    returns (r: Result<seq<NotionPropertyValues>>)
    ensures r == ExtractFrom(validate, registry, pages, map[])
  {
    var values: map<string, Json> := map[];
    var records: seq<NotionPropertyValues> := [];
    var i := 0;
    assert pages[0..] == pages;
    PrependNothing(ExtractFrom(validate, registry, pages, values));
    while i < |pages|
      invariant 0 <= i <= |pages|
      invariant ExtractFrom(validate, registry, pages, map[])
             == Prepend(records, ExtractFrom(validate, registry, pages[i..], values))
    {
      var page := pages[i];
      assert pages[i..][0] == page && pages[i..][1..] == pages[i + 1..];
      if !(page.JObj? && "properties" in page.fields && page.fields["properties"].JObj?) {
        assert PageStep(registry, values, page).Err?;
        return Err(MalformedInput);
      }
      var read := ReadPageProperties(registry, values, page.fields["properties"].fields);
      if read.None? {
        assert PageStep(registry, values, page) == Err(UnsupportedPropertyType);
        return Err(UnsupportedPropertyType);
      }
      if "id" !in page.fields {
        assert PageStep(registry, values, page) == Err(MalformedInput);
        return Err(MalformedInput);
      }
      ghost var before := values;
      values := read.value["id" := page.fields["id"]];
      assert PageStep(registry, before, page) == Ok(values);
      var rec := validate(values);
      if rec.Err? {
        StepFails(validate, registry, pages[i..], before, rec.error);
        return Err(rec.error);
      }
      StepSucceeds(validate, registry, pages[i..], before, rec.value);
      PrependTwice(records, [rec.value], ExtractFrom(validate, registry, pages[i + 1..], values));
      records := records + [rec.value];
      i := i + 1;
    }
    assert pages[i..] == [];
    assert records + [] == records;
    r := Ok(records);
  }

  lemma StepSucceeds(validate: Validator, registry: Registry, pages: seq<Json>, values: map<string, Json>,
                     rec: NotionPropertyValues)
    requires pages != [] && PageStep(registry, values, pages[0]).Ok?
    requires validate(PageStep(registry, values, pages[0]).value) == Ok(rec)
    ensures ExtractFrom(validate, registry, pages, values)
         == Prepend([rec], ExtractFrom(validate, registry, pages[1..], PageStep(registry, values, pages[0]).value))
  {
  }

  lemma StepFails(validate: Validator, registry: Registry, pages: seq<Json>, values: map<string, Json>, e: Error)
    requires pages != [] && PageStep(registry, values, pages[0]).Ok?
    requires validate(PageStep(registry, values, pages[0]).value) == Err(e)
    ensures ExtractFrom(validate, registry, pages, values) == Err(e)
  {
  }

  /** The overall outcome once `done` records were already appended. */
  function Prepend(done: seq<NotionPropertyValues>, rest: Result<seq<NotionPropertyValues>>)
    : Result<seq<NotionPropertyValues>>
  {
    match rest
    case Err(e) => Err(e)
    case Ok(recs) => Ok(done + recs)
  }

  lemma PrependNothing(rest: Result<seq<NotionPropertyValues>>)
    ensures Prepend([], rest) == rest
  {
    if rest.Ok? {
      assert [] + rest.value == rest.value;
    }
  }

  lemma PrependTwice(a: seq<NotionPropertyValues>, b: seq<NotionPropertyValues>,
                     rest: Result<seq<NotionPropertyValues>>)
    ensures Prepend(a, Prepend(b, rest)) == Prepend(a + b, rest)
  {
    if rest.Ok? {
      assert a + (b + rest.value) == (a + b) + rest.value;
    }
  }

  // ---------------------------------------------------------------------
  // Properties of the page loop

  /** What one page does to the shared accumulator: every property of the
      page is overwritten with its payload, `id` with the page's id, and
      every other key keeps the value an earlier page left there. */
  lemma PageStepSpec(registry: Registry, values: map<string, Json>, page: Json)
    requires PageStep(registry, values, page).Ok?
    ensures page.JObj? && "id" in page.fields && "properties" in page.fields && page.fields["properties"].JObj?
    ensures var props := page.fields["properties"].fields;
      var next := PageStep(registry, values, page).value;
      && next.Keys == values.Keys + props.Keys + {"id"}
      && next["id"] == page.fields["id"]
      && (forall k | k in props && k != "id" :: next[k] == ExtractProperty(registry, props[k]).value)
      && (forall k | k in values && k !in props && k != "id" :: next[k] == values[k])
  {
  }

  /** A page fails the whole extraction when one of its properties has no
      rule: whatever the pages before it do, no partial list is returned. */
  lemma {:induction false} UnsupportedPropertyAborts(validate: Validator, registry: Registry, pages: seq<Json>,
                                                     values: map<string, Json>, j: int, k: string)
    requires 0 <= j < |pages|
    requires pages[j].JObj? && "properties" in pages[j].fields && pages[j].fields["properties"].JObj?
    requires k in pages[j].fields["properties"].fields
    requires ExtractProperty(registry, pages[j].fields["properties"].fields[k]).None?
    ensures ExtractFrom(validate, registry, pages, values).Err?
  {
    if j == 0 {
      assert PageStep(registry, values, pages[0]) == Err(UnsupportedPropertyType);
    } else {
      match PageStep(registry, values, pages[0])
      case Err(_) =>
      case Ok(next) =>
        assert pages[1..][j - 1] == pages[j];
        UnsupportedPropertyAborts(validate, registry, pages[1..], next, j - 1, k);
    }
  }

  /** A successful extraction yields one record per page. */
  lemma {:induction false} OneRecordPerPage(validate: Validator, registry: Registry, pages: seq<Json>,
                                            values: map<string, Json>)
    requires ExtractFrom(validate, registry, pages, values).Ok?
    ensures |ExtractFrom(validate, registry, pages, values).value| == |pages|
  {
    if pages != [] {
      OneRecordPerPage(validate, registry, pages[1..], PageStep(registry, values, pages[0]).value);
    }
  }

  /** Records come in page order: record `i` is the validation of the shared
      accumulator as it stands after `i + 1` pages. */
  lemma {:induction false} RecordAt(validate: Validator, registry: Registry, pages: seq<Json>,
                                    values: map<string, Json>, i: nat)
    requires ExtractFrom(validate, registry, pages, values).Ok? && i < |pages|
    ensures |ExtractFrom(validate, registry, pages, values).value| == |pages|
    ensures Accumulated(registry, pages, values, i + 1).Ok?
    ensures validate(Accumulated(registry, pages, values, i + 1).value)
         == Ok(ExtractFrom(validate, registry, pages, values).value[i])
  {
    OneRecordPerPage(validate, registry, pages, values);
    ExtractFromFirst(validate, registry, pages, values);
    var next := PageStep(registry, values, pages[0]).value;
    if i == 0 {
      assert Accumulated(registry, pages, values, 1) == Ok(next);
    } else {
      RecordAt(validate, registry, pages[1..], next, i - 1);
      var rest := ExtractFrom(validate, registry, pages[1..], next).value;
      assert ExtractFrom(validate, registry, pages, values).value[i] == rest[i - 1];
    }
  }

  /** A successful extraction took its first page, validated it, and went on
      with the rest from the new accumulator. */
  lemma ExtractFromFirst(validate: Validator, registry: Registry, pages: seq<Json>,
                         values: map<string, Json>)
    requires ExtractFrom(validate, registry, pages, values).Ok? && pages != []
    ensures PageStep(registry, values, pages[0]).Ok?
    ensures validate(PageStep(registry, values, pages[0]).value).Ok?
    ensures ExtractFrom(validate, registry, pages[1..], PageStep(registry, values, pages[0]).value).Ok?
    ensures var recs := ExtractFrom(validate, registry, pages, values).value;
      var rest := ExtractFrom(validate, registry, pages[1..], PageStep(registry, values, pages[0]).value).value;
      && |recs| == |rest| + 1
      && validate(PageStep(registry, values, pages[0]).value) == Ok(recs[0])
      && forall j | 0 < j < |recs| :: recs[j] == rest[j - 1]
  {
  }

  /** Records `i - 1` and `i` are validated from the accumulator before
      and after page `i`. */
  lemma ConsecutiveRecords(validate: Validator, registry: Registry,
                           pages: seq<Json>, values: map<string, Json>, i: nat)
    requires ExtractFrom(validate, registry, pages, values).Ok? && 0 < i < |pages|
    ensures |ExtractFrom(validate, registry, pages, values).value| == |pages|
    ensures Accumulated(registry, pages, values, i).Ok?
    ensures var prev := Accumulated(registry, pages, values, i).value;
      var recs := ExtractFrom(validate, registry, pages, values).value;
      && PageStep(registry, prev, pages[i]).Ok?
      && validate(prev) == Ok(recs[i - 1])
      && validate(PageStep(registry, prev, pages[i]).value) == Ok(recs[i])
  {
    RecordAt(validate, registry, pages, values, i - 1);
    RecordAt(validate, registry, pages, values, i);
    AccumulatedLast(registry, pages, values, i);
  }

  /** Record `i` carries page `i`'s id. */
  lemma RecordIdIsPageId(registry: Registry, pages: seq<Json>, values: map<string, Json>, i: nat)
    requires ExtractFrom(Validate, registry, pages, values).Ok? && i < |pages|
    ensures |ExtractFrom(Validate, registry, pages, values).value| == |pages|
    ensures pages[i].JObj? && "id" in pages[i].fields
    ensures pages[i].fields["id"] == JStr(ExtractFrom(Validate, registry, pages, values).value[i].id_)
  {
    RecordInput(Validate, registry, pages, values, i);
  }

  /** Record `i` is validated from an accumulator whose `id` is page `i`'s. */
  lemma RecordInput(validate: Validator, registry: Registry, pages: seq<Json>,
                    values: map<string, Json>, i: nat)
    requires ExtractFrom(validate, registry, pages, values).Ok? && i < |pages|
    ensures |ExtractFrom(validate, registry, pages, values).value| == |pages|
    ensures pages[i].JObj? && "id" in pages[i].fields
    ensures Accumulated(registry, pages, values, i + 1).Ok?
    ensures var acc := Accumulated(registry, pages, values, i + 1).value;
      && "id" in acc && acc["id"] == pages[i].fields["id"]
      && validate(acc) == Ok(ExtractFrom(validate, registry, pages, values).value[i])
  {
    RecordAt(validate, registry, pages, values, i);
    if i > 0 { RecordAt(validate, registry, pages, values, i - 1); }
    AccumulatedLast(registry, pages, values, i);
    var prev := Accumulated(registry, pages, values, i).value;
    PageStepSpec(registry, prev, pages[i]);
  }

  /** Every extracted record holds every field with a value of its type,
      as `normalise_data` needs. */
  lemma ExtractedRecordIsWellTyped(registry: Registry, pages: seq<Json>, values: map<string, Json>,
                                   i: nat)
    requires ExtractFrom(Validate, registry, pages, values).Ok? && i < |pages|
    ensures |ExtractFrom(Validate, registry, pages, values).value| == |pages|
    ensures WellTyped(ExtractFrom(Validate, registry, pages, values).value[i])
  {
    RecordAt(Validate, registry, pages, values, i);
    var acc := Accumulated(registry, pages, values, i + 1).value;
    ValidateSpec(acc);
    assert Validate(acc) == Ok(ExtractFrom(Validate, registry, pages, values).value[i]);
  }

  /** The accumulator after `i + 1` pages is page `i` applied to the
      accumulator after `i` pages. */
  lemma {:induction false} AccumulatedLast(registry: Registry, pages: seq<Json>,
                                           values: map<string, Json>, i: nat)
    requires i < |pages| && Accumulated(registry, pages, values, i).Ok?
    ensures Accumulated(registry, pages, values, i + 1)
         == PageStep(registry, Accumulated(registry, pages, values, i).value, pages[i])
  {
    if i > 0 {
      var next := PageStep(registry, values, pages[0]).value;
      AccumulatedLast(registry, pages[1..], next, i - 1);
      assert pages[1..][i - 1] == pages[i];
    }
  }

  /** Because the accumulator is shared, a field whose property (under its
      alias and under its field name) is absent from page `i` is validated
      from the same input as on page `i - 1`: record `i` repeats record
      `i - 1`'s value for it instead of taking the field's default. */
  lemma AbsentPropertyInheritsField(registry: Registry, pages: seq<Json>, n: string, i: int)
    requires n in FIELD_TABLE && 0 < i < |pages|
    requires ExtractFrom(Validate, registry, pages, map[]).Ok?
    requires pages[i].JObj? && "properties" in pages[i].fields && pages[i].fields["properties"].JObj?
    requires FIELD_TABLE[n].alias !in pages[i].fields["properties"].fields
    requires n !in pages[i].fields["properties"].fields
    requires FIELD_TABLE[n].alias != "id" && n != "id"
    ensures |ExtractFrom(Validate, registry, pages, map[]).value| == |pages|
    ensures n in ExtractFrom(Validate, registry, pages, map[]).value[i].fields
         && n in ExtractFrom(Validate, registry, pages, map[]).value[i - 1].fields
    ensures ExtractFrom(Validate, registry, pages, map[]).value[i].fields[n] ==
            ExtractFrom(Validate, registry, pages, map[]).value[i - 1].fields[n]
  {
    ConsecutiveRecords(Validate, registry, pages, map[], i);
    var prev := Accumulated(registry, pages, map[], i).value;
    var cur := PageStep(registry, prev, pages[i]).value;
    AbsentPropertyKeepsInput(registry, prev, pages[i], FIELD_TABLE[n].alias, n);
    SameInputSameField(prev, cur, n);
  }

  /** A page whose properties do not include `alias` or `name` leaves the
      accumulator's input for that field as it was. */
  lemma AbsentPropertyKeepsInput(registry: Registry, values: map<string, Json>, page: Json,
                                 alias: string, name: string)
    requires PageStep(registry, values, page).Ok?
    requires page.JObj? && "properties" in page.fields && page.fields["properties"].JObj?
    requires alias !in page.fields["properties"].fields && name !in page.fields["properties"].fields
    requires alias != "id" && name != "id"
    ensures Lookup(PageStep(registry, values, page).value, alias, name) == Lookup(values, alias, name)
  {
    PageStepSpec(registry, values, page);
  }

  // ---------------------------------------------------------------------
  // Choosing the "Leads" data source

  /** The loop over `my_page["data_sources"]` from accumulator `found`:
      every entry named "Leads" is validated and replaces the previous one;
      an entry without a `name` key, or that is not a dict, raises. */
  function LastNamed(dataSources: seq<Json>, target: string, found: Option<DataSourceInfos>): Result<DataSourceInfos>
  {
    if dataSources == [] then
      (match found case Some(ds) => Ok(ds) case None => Err(MissingNamedCollection))
    else if !(dataSources[0].JObj? && "name" in dataSources[0].fields) then Err(MalformedInput)
    else if dataSources[0].fields["name"] != JStr(target) then LastNamed(dataSources[1..], target, found)
    else match ValidateDataSourceInfos(dataSources[0].fields)
      case Err(e) => Err(e)
      case Ok(ds) => LastNamed(dataSources[1..], target, Some(ds))
  }

  function LeadsDataSource(database: Json): Result<DataSourceInfos> {
    if database.JObj? && "data_sources" in database.fields && Iterated(database.fields["data_sources"]).Some? then
      LastNamed(Iterated(database.fields["data_sources"]).value, "Leads", None)
    else Err(MalformedInput)
  }

  /** The selection loop of `get_data_source_from_notion`; `data_source` is
      unbound (here `None`) until an entry named "Leads" is seen. */
  method GetLeadsDataSource(database: Json) returns (r: Result<DataSourceInfos>)
    ensures r == LeadsDataSource(database)
  {
    if !(database.JObj? && "data_sources" in database.fields && Iterated(database.fields["data_sources"]).Some?) {
      return Err(MalformedInput);
    }
    var sources := Iterated(database.fields["data_sources"]).value;
    var dataSource: Option<DataSourceInfos> := None;
    var i := 0;
    while i < |sources|
      invariant 0 <= i <= |sources|
      invariant LastNamed(sources, "Leads", None) == LastNamed(sources[i..], "Leads", dataSource)
    {
      var entry := sources[i];
      assert sources[i..][0] == entry && sources[i..][1..] == sources[i + 1..];
      if !(entry.JObj? && "name" in entry.fields) {
        return Err(MalformedInput);
      }
      if entry.fields["name"] == JStr("Leads") {
        var ds := ValidateDataSourceInfos(entry.fields);
        if ds.Err? {
          return Err(ds.error);
        }
        dataSource := Some(ds.value);
      }
      i := i + 1;
    }
    assert sources[i..] == [];
    if dataSource.None? {
      return Err(MissingNamedCollection);
    }
    r := Ok(dataSource.value);
  }

  /** Entry `e` is a dict whose `name` is not `target`. */
  predicate NotNamed(e: Json, target: string) {
    e.JObj? && Get(e.fields, "name") != JStr(target)
  }

  /** No entry after index `j` is named `target`. */
  predicate NoneNamedAfter(dataSources: seq<Json>, target: string, j: int) {
    forall l | 0 <= l < |dataSources| && j < l :: NotNamed(dataSources[l], target)
  }

  lemma NoneNamedAfterShift(dataSources: seq<Json>, target: string, j: int)
    requires dataSources != [] && -1 <= j
    ensures NoneNamedAfter(dataSources, target, j + 1) <==> NoneNamedAfter(dataSources[1..], target, j)
  {
    assert forall l | 1 <= l < |dataSources| :: dataSources[l] == dataSources[1..][l - 1];
    if NoneNamedAfter(dataSources[1..], target, j) {
      forall l | j + 1 < l < |dataSources| ensures NotNamed(dataSources[l], target) {
        assert dataSources[l] == dataSources[1..][l - 1];
      }
    }
  }

  /** The last entry named `target` wins: a successful choice is the
      validated entry at some index `j`, and no later entry has that name. */
  lemma {:induction false} LastNamedWins(dataSources: seq<Json>, target: string, found: Option<DataSourceInfos>)
    requires LastNamed(dataSources, target, found).Ok?
    requires found.Some? ==> found.value.name == target
    ensures var ds := LastNamed(dataSources, target, found).value;
      ds.name == target
      && ((exists j | 0 <= j < |dataSources| ::
             dataSources[j].JObj? && ValidateDataSourceInfos(dataSources[j].fields) == Ok(ds)
             && NoneNamedAfter(dataSources, target, j))
          || (found == Some(ds) && NoneNamedAfter(dataSources, target, -1)))
  {
    if dataSources != [] {
      var head, rest := dataSources[0], dataSources[1..];
      var ds := LastNamed(dataSources, target, found).value;
      var next := if head.fields["name"] != JStr(target) then found
                  else Some(ValidateDataSourceInfos(head.fields).value);
      assert LastNamed(rest, target, next) == LastNamed(dataSources, target, found);
      LastNamedWins(rest, target, next);
      if exists j | 0 <= j < |rest| :: rest[j].JObj? && ValidateDataSourceInfos(rest[j].fields) == Ok(ds)
           && NoneNamedAfter(rest, target, j) {
        var j :| 0 <= j < |rest| && rest[j].JObj? && ValidateDataSourceInfos(rest[j].fields) == Ok(ds)
           && NoneNamedAfter(rest, target, j);
        NoneNamedAfterShift(dataSources, target, j);
        assert dataSources[j + 1] == rest[j];
      } else {
        NoneNamedAfterShift(dataSources, target, -1);
        if head.fields["name"] != JStr(target) {
          assert NotNamed(dataSources[0], target);
        }
      }
    }
  }

  /** Some entry is named `target`. */
  predicate SomeNamed(dataSources: seq<Json>, target: string) {
    exists l | 0 <= l < |dataSources| :: dataSources[l].JObj? && Get(dataSources[l].fields, "name") == JStr(target)
  }

  /** Conversely, when every entry is a dict with a name, every entry named
      `target` is a valid data source, and one has been seen already or some
      entry has that name, the choice succeeds. */
  lemma {:induction false} WellFormedLeadsSucceeds(dataSources: seq<Json>, target: string,
                                                  found: Option<DataSourceInfos>)
    requires forall l | 0 <= l < |dataSources| :: dataSources[l].JObj? && "name" in dataSources[l].fields
    requires forall l | 0 <= l < |dataSources| && dataSources[l].fields["name"] == JStr(target) ::
      ValidateDataSourceInfos(dataSources[l].fields).Ok?
    requires found.Some? || SomeNamed(dataSources, target)
    ensures LastNamed(dataSources, target, found).Ok?
  {
    if dataSources != [] {
      var head, rest := dataSources[0], dataSources[1..];
      assert forall l | 1 <= l < |dataSources| :: dataSources[l] == rest[l - 1];
      if head.fields["name"] != JStr(target) {
        if found.None? {
          var l :| 0 <= l < |dataSources| && dataSources[l].JObj? && Get(dataSources[l].fields, "name") == JStr(target);
          assert l != 0;
          assert rest[l - 1] == dataSources[l];
        }
        WellFormedLeadsSucceeds(rest, target, found);
      } else {
        WellFormedLeadsSucceeds(rest, target, Some(ValidateDataSourceInfos(head.fields).value));
      }
    }
  }

  /** No entry named "Leads" (all entries being dicts with a name) is the
      missing-collection error. */
  lemma {:induction false} NoLeadsIsMissing(dataSources: seq<Json>, target: string)
    requires forall l | 0 <= l < |dataSources| ::
      dataSources[l].JObj? && "name" in dataSources[l].fields && dataSources[l].fields["name"] != JStr(target)
    ensures LastNamed(dataSources, target, None) == Err(MissingNamedCollection)
  {
    if dataSources != [] {
      assert forall l | 1 <= l < |dataSources| :: dataSources[l] == dataSources[1..][l - 1];
      NoLeadsIsMissing(dataSources[1..], target);
    }
  }
}
