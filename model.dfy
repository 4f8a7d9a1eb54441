/** The record model of a lead page (`NotionPropertyValues` and the value
    objects it is made of), its validation from the accumulated property
    values, the data-source descriptor, and the declared table schema.

    The lead record is a fixed table of fields, each with a field name, the
    source property name it is read from (its alias) and its annotated type;
    validation looks every field up, applies the field's "before" validator
    where it has one, checks the value against the annotation, and fails as
    a whole when any field fails. */
module LeadModel {
  import opened Common
  import opened Dates

  // ---------------------------------------------------------------------
  // Value objects

  /** `DataSourceInfos`: both fields are required. */
  datatype DataSourceInfos = DataSourceInfos(id_: string, name: string)

  /** `DateValue`: every field optional, defaulting to `None`. */
  datatype DateValue = DateValue(start: Option<Date>, end: Option<Date>, time_zone: Option<string>)

  /** `SelectValue`: every field optional, defaulting to `None`. */
  datatype SelectValue = SelectValue(id: Option<string>, name: Option<string>, color: Option<string>)

  datatype TextContent = TextContent(content: string, link: Option<map<string, Json>>)

  /** `RichText`: `plain_text`, `text`, `type` and `annotations` are required. */
  datatype RichText = RichText(
    plain_text: string,
    text: TextContent,
    type_: string,
    href: Option<string>,
    annotations: map<string, Json>)

  /** `SelectValue()` and `DateValue()`, what the before validators substitute. */
  const EMPTY_SELECT := SelectValue(None, None, None)
  const EMPTY_DATE := DateValue(None, None, None)

  // ---------------------------------------------------------------------
  // Fields of the lead record

  /** The annotated type of a field. `DateOrNone(true)` marks the three date
      fields that carry the date "before" validator; every `SelectOrNone`
      field carries the select/status "before" validator. */
  datatype FieldType =
    | SelectOrNone          // SelectValue | None = None
    | RichTextList          // list[RichText] = []   (rich text and title)
    | DateOrNone(coerced: bool)  // DateValue | None = None
    | FloatOrNone           // Optional[float] = None
    | StrOrNone             // Optional[str] = None
    | DictList              // list[dict] = []

  datatype Field = Field(alias: string, ftype: FieldType)

  /** Field name to (alias, annotated type), `id_` excepted. */
  const FIELD_TABLE: map<string, Field> := map[
    "activite_source_pharow" := Field("Activité source Pharow", SelectOrNone),
    "departement" := Field("Département", SelectOrNone),
    "en_croissance" := Field("En croissance", SelectOrNone),
    "genre" := Field("Genre", SelectOrNone),
    "niveau_hierachique" := Field("Niveau hiérachique", SelectOrNone),
    "priorite" := Field("Priorité", SelectOrNone),
    "reponse_setting" := Field("Réponse setting", SelectOrNone),
    "show" := Field("Show", SelectOrNone),
    "sous_departement" := Field("Sous-département", SelectOrNone),
    "tranche_effectif_corrigee" := Field("Tranche d'effectif corrigée", SelectOrNone),
    "type_de_setting" := Field("Type de setting", SelectOrNone),
    "etat" := Field("État", SelectOrNone),
    "adresse_siege_complete" := Field("Adresse du siège complète", RichTextList),
    "chiffre_affaires_simplifie" := Field("Chiffre d'affaires simplifié", RichTextList),
    "nom" := Field("Nom", RichTextList),
    "nom_entreprise" := Field("Nom entreprise", RichTextList),
    "poste_occupe" := Field("Poste occupé", RichTextList),
    "prenom" := Field("Prenom", RichTextList),
    "ville_residence" := Field("Ville de résidence", RichTextList),
    "nom_du_projet" := Field("Nom du projet", RichTextList),
    "date_appel_booke" := Field("Date d'appel booké", DateOrNone(true)),
    "date_appel_propose" := Field("Date d'appel proposé", DateOrNone(true)),
    "date_prise_contact" := Field("Date de prise de contact", DateOrNone(false)),
    "date_relance" := Field("Date de relance", DateOrNone(true)),
    "date_reponse_prospect" := Field("Date de réponse du prospect", DateOrNone(false)),
    "budget" := Field("Budget", FloatOrNone),
    "email_pro" := Field("Email pro", StrOrNone),
    "telephone" := Field("Téléphone", StrOrNone),
    "url_site_internet" := Field("URL du site internet", StrOrNone),
    "url_linkedin" := Field("Url Linkedin", StrOrNone),
    "personne_assignee" := Field("Personne assignée", DictList)
  ]
  /** The field names in the order the model declares them, which is the
      order Pydantic validates them in. */
  const FIELD_ORDER: seq<string> := [
    "activite_source_pharow",
    "departement",
    "en_croissance",
    "genre",
    "niveau_hierachique",
    "priorite",
    "reponse_setting",
    "show",
    "sous_departement",
    "tranche_effectif_corrigee",
    "type_de_setting",
    "etat",
    "adresse_siege_complete",
    "chiffre_affaires_simplifie",
    "nom",
    "nom_entreprise",
    "poste_occupe",
    "prenom",
    "ville_residence",
    "nom_du_projet",
    "date_appel_booke",
    "date_appel_propose",
    "date_prise_contact",
    "date_relance",
    "date_reponse_prospect",
    "budget",
    "email_pro",
    "telephone",
    "url_site_internet",
    "url_linkedin",
    "personne_assignee"
  ]


  /** The validated value of one field; the variant follows the field type. */
  datatype FieldValue =
    | SelectV(select: Option<SelectValue>)
    | RichTextV(runs: seq<RichText>)
    | DateV(date: Option<DateValue>)
    | FloatV(number: Option<real>)
    | StrV(text: Option<string>)
    | DictListV(dicts: seq<map<string, Json>>)

  /** A validated lead record. */
  datatype NotionPropertyValues = NotionPropertyValues(id_: string, fields: map<string, FieldValue>)

  predicate HasType(v: FieldValue, t: FieldType) {
    match t
    case SelectOrNone => v.SelectV?
    case RichTextList => v.RichTextV?
    case DateOrNone(_) => v.DateV?
    case FloatOrNone => v.FloatV?
    case StrOrNone => v.StrV?
    case DictList => v.DictListV?
  }

  /** Every field of the table is present with a value of its type. */
  predicate WellTyped(rec: NotionPropertyValues) {
    rec.fields.Keys == FIELD_TABLE.Keys
    && forall n | n in FIELD_TABLE :: HasType(rec.fields[n], FIELD_TABLE[n].ftype)
  }

  // ---------------------------------------------------------------------
  // Validation of the value objects

  /** `Optional[str]`: `None` is accepted, so is a string. The outer option
      says whether the input was valid. */
  function OptStr(v: Json): (r: Option<Option<string>>)
  {
    match v
    case JNull => Some(None)
    case JStr(s) => Some(Some(s))
    case _ => None
  }

  /** `Optional[date]`: `None`, or a string in ISO date form. */
  function OptDate(v: Json): (r: Option<Option<Date>>)
  {
    match v
    case JNull => Some(None)
    case JStr(s) => (match ParseIsoDate(s) case Some(d) => Some(Some(d)) case None => None)
    case _ => None
  }

  /** `Optional[dict]`. */
  function OptDict(v: Json): (r: Option<Option<map<string, Json>>>)
  {
    match v
    case JNull => Some(None)
    case JObj(m) => Some(Some(m))
    case _ => None
  }

  /** A `DateValue` built from a dict; an absent key takes its default `None`,
      which is the value `Get` returns for it. */
  function ParseDateValue(m: map<string, Json>): (r: Option<DateValue>)
    ensures r.Some? <==> OptDate(Get(m, "start")).Some? && OptDate(Get(m, "end")).Some?
                         && OptStr(Get(m, "time_zone")).Some?
    ensures r.Some? ==> r.value.start == OptDate(Get(m, "start")).value
  {
    match (OptDate(Get(m, "start")), OptDate(Get(m, "end")), OptStr(Get(m, "time_zone")))
    case (Some(s), Some(e), Some(z)) => Some(DateValue(s, e, z))
    case _ => None
  }

  /** `TextContent`: `content` is a required string, `link` an optional dict. */
  function ParseTextContent(v: Json): (r: Option<TextContent>)
    ensures r.Some? <==> v.JObj? && "content" in v.fields && v.fields["content"].JStr?
                         && (Get(v.fields, "link").JNull? || Get(v.fields, "link").JObj?)
    ensures r.Some? ==> r.value.content == v.fields["content"].s
    ensures r.Some? ==> r.value.link == if Get(v.fields, "link").JObj? then Some(Get(v.fields, "link").fields) else None
  {
    match v
    case JObj(m) =>
      if "content" in m && m["content"].JStr? then
        match OptDict(Get(m, "link"))
        case Some(l) => Some(TextContent(m["content"].s, l))
        case None => None
      else None
    case _ => None
  }

  /** The four keys whose absence makes a rich-text element invalid. */
  predicate HasRequiredRichTextKeys(m: map<string, Json>) {
    "plain_text" in m && "text" in m && "type" in m && "annotations" in m
  }

  /** `RichText`: string `plain_text` and `type`, a valid `text`, a dict
      `annotations`, and `href` an optional string. */
  function ParseRichText(v: Json): (r: Option<RichText>)
    ensures r.Some? <==> v.JObj? && HasRequiredRichTextKeys(v.fields)
                         && v.fields["plain_text"].JStr? && v.fields["type"].JStr? && v.fields["annotations"].JObj?
                         && ParseTextContent(v.fields["text"]).Some?
                         && (Get(v.fields, "href").JNull? || Get(v.fields, "href").JStr?)
    ensures r.Some? ==>
      && r.value.plain_text == v.fields["plain_text"].s
      && r.value.text == ParseTextContent(v.fields["text"]).value
      && r.value.type_ == v.fields["type"].s
      && r.value.href == (if Get(v.fields, "href").JStr? then Some(Get(v.fields, "href").s) else None)
      && r.value.annotations == v.fields["annotations"].fields
  {
    match v
    case JObj(m) =>
      if HasRequiredRichTextKeys(m) && m["plain_text"].JStr? && m["type"].JStr? && m["annotations"].JObj? then
        match (ParseTextContent(m["text"]), OptStr(Get(m, "href")))
        case (Some(t), Some(h)) => Some(RichText(m["plain_text"].s, t, m["type"].s, h, m["annotations"].fields))
        case _ => None
      else None
    case _ => None
  }

  /** `list[RichText]` over the items of a list: valid when every item is. */
  function ParseRichTexts(items: seq<Json>): (r: Option<seq<RichText>>)
  {
    if items == [] then Some([])
    else match (ParseRichText(items[0]), ParseRichTexts(items[1..]))
      case (Some(x), Some(xs)) => Some([x] + xs)
      case _ => None
  }

  lemma {:induction false} ParseRichTextsSpec(items: seq<Json>)
    ensures ParseRichTexts(items).Some? <==> forall i | 0 <= i < |items| :: ParseRichText(items[i]).Some?
    ensures ParseRichTexts(items).Some? ==>
      |ParseRichTexts(items).value| == |items|
      && forall i | 0 <= i < |items| :: ParseRichTexts(items).value[i] == ParseRichText(items[i]).value
  {
    if items != [] {
      ParseRichTextsSpec(items[1..]);
      assert forall i | 1 <= i < |items| :: items[i] == items[1..][i - 1];
    }
  }

  /** `list[dict]` over the items of a list. */
  function ParseDicts(items: seq<Json>): (r: Option<seq<map<string, Json>>>)
  {
    if items == [] then Some([])
    else match (items[0], ParseDicts(items[1..]))
      case (JObj(m), Some(ms)) => Some([m] + ms)
      case _ => None
  }

  lemma {:induction false} ParseDictsSpec(items: seq<Json>)
    ensures ParseDicts(items).Some? <==> forall i | 0 <= i < |items| :: items[i].JObj?
    ensures ParseDicts(items).Some? ==>
      |ParseDicts(items).value| == |items|
      && forall i | 0 <= i < |items| :: ParseDicts(items).value[i] == items[i].fields
  {
    if items != [] {
      ParseDictsSpec(items[1..]);
      assert forall i | 1 <= i < |items| :: items[i] == items[1..][i - 1];
    }
  }

  // ---------------------------------------------------------------------
  // Validation of the lead record

  /** The default of a field absent from the input. */
  function Default(t: FieldType): (v: FieldValue)
    ensures HasType(v, t)
  {
    match t
    case SelectOrNone => SelectV(None)
    case RichTextList => RichTextV([])
    case DateOrNone(_) => DateV(None)
    case FloatOrNone => FloatV(None)
    case StrOrNone => StrV(None)
    case DictList => DictListV([])
  }

  /** A field value present in the input, after its before validator (if
      any) and the check against its annotation. The before validators test
      `isinstance(value, SelectValue)` / `isinstance(value, DateValue)`; the
      input is always a decoded JSON value, never such an instance, so they
      always substitute the empty object. */
  function ValidateField(t: FieldType, v: Json): (r: Option<FieldValue>)
    ensures r.Some? ==> HasType(r.value, t)
    // the before validators: any present input becomes the empty object
    ensures t == SelectOrNone ==> r == Some(SelectV(Some(EMPTY_SELECT)))
    ensures t == DateOrNone(true) ==> r == Some(DateV(Some(EMPTY_DATE)))
    // the other fields keep what they are given, or refuse it
    ensures t == DateOrNone(false) ==>
      && (r.Some? <==> v.JNull? || (v.JObj? && ParseDateValue(v.fields).Some?))
      && (v.JNull? ==> r == Some(DateV(None)))
      && (r.Some? && v.JObj? ==> r == Some(DateV(Some(ParseDateValue(v.fields).value))))
    ensures t == FloatOrNone ==>
      && (r.Some? <==> v.JNull? || v.JNum?)
      && (v.JNull? ==> r == Some(FloatV(None)))
      && (v.JNum? ==> r == Some(FloatV(Some(v.n))))
    ensures t == StrOrNone ==>
      && (r.Some? <==> v.JNull? || v.JStr?)
      && (v.JNull? ==> r == Some(StrV(None)))
      && (v.JStr? ==> r == Some(StrV(Some(v.s))))
    ensures t == RichTextList ==>
      && (r.Some? <==> v.JArr? && ParseRichTexts(v.items).Some?)
      && (r.Some? ==> r == Some(RichTextV(ParseRichTexts(v.items).value)))
    ensures t == DictList ==>
      && (r.Some? <==> v.JArr? && ParseDicts(v.items).Some?)
      && (r.Some? ==> r == Some(DictListV(ParseDicts(v.items).value)))
  {
    match t
    case SelectOrNone => Some(SelectV(Some(EMPTY_SELECT)))
    case DateOrNone(coerced) =>
      if coerced then Some(DateV(Some(EMPTY_DATE)))
      else (match v
            case JNull => Some(DateV(None))
            case JObj(m) => (match ParseDateValue(m) case Some(d) => Some(DateV(Some(d))) case None => None)
            case _ => None)
    case RichTextList =>
      (match v
       case JArr(items) => (match ParseRichTexts(items) case Some(rs) => Some(RichTextV(rs)) case None => None)
       case _ => None)
    case FloatOrNone =>
      (match v case JNull => Some(FloatV(None)) case JNum(x) => Some(FloatV(Some(x))) case _ => None)
    case StrOrNone =>
      (match OptStr(v) case Some(o) => Some(StrV(o)) case None => None)
    case DictList =>
      (match v
       case JArr(items) => (match ParseDicts(items) case Some(ds) => Some(DictListV(ds)) case None => None)
       case _ => None)
  }

  /** A field's input, looked up by alias first and then, because the model
      is configured with `populate_by_name`, by its field name. */
  function Lookup(values: map<string, Json>, alias: string, name: string): (r: Option<Json>)
    ensures r.None? <==> alias !in values && name !in values
    ensures alias in values ==> r == Some(values[alias])
    ensures alias !in values && name in values ==> r == Some(values[name])
  {
    if alias in values then Some(values[alias])
    else if name in values then Some(values[name])
    else None
  }

  /** The outcome for one field: its default when absent (defaults are not
      validated, so no before validator runs), else its validated input. */
  function FieldOutcome(values: map<string, Json>, n: string): (r: Option<FieldValue>)
    requires n in FIELD_TABLE
    ensures r.Some? ==> HasType(r.value, FIELD_TABLE[n].ftype)
  {
    match Lookup(values, FIELD_TABLE[n].alias, n)
    case None => Some(Default(FIELD_TABLE[n].ftype))
    case Some(v) => ValidateField(FIELD_TABLE[n].ftype, v)
  }

  /** The fields `names`, validated one after another; the first invalid
      one fails them all. */
  function ValidateFields(values: map<string, Json>, names: seq<string>): Option<map<string, FieldValue>>
    requires forall n | n in names :: n in FIELD_TABLE
  {
    if names == [] then Some(map[])
    else match FieldOutcome(values, names[0])
      case None => None
      case Some(v) =>
        match ValidateFields(values, names[1..])
        case None => None
        case Some(rest) => Some(rest[names[0] := v])
  }

  /** `NotionPropertyValues(**values)`: keys matching no alias or field name
      are ignored; the record is built only when `id` is a string and every
      field is valid. */
  function Validate(values: map<string, Json>): (r: Result<NotionPropertyValues>)
    ensures r.Ok? ==> Lookup(values, "id", "id_") == Some(JStr(r.value.id_))
    ensures r.Err? ==> r.error == ValidationError
  {
    match Lookup(values, "id", "id_")
    case Some(JStr(id)) =>
      (match ValidateFields(values, FIELD_ORDER)
       case Some(fields) => Ok(NotionPropertyValues(id, fields))
       case None => Err(ValidationError))
    case _ => Err(ValidationError)
  }

  // ---------------------------------------------------------------------
  // Properties of validation

  /** The declaration order lists exactly the fields of the table. */
  lemma FieldOrderIsTheTable()
    ensures forall n | n in FIELD_ORDER :: n in FIELD_TABLE
    ensures forall n | n in FIELD_TABLE :: n in FIELD_ORDER
  {
    forall n | n in FIELD_ORDER
      ensures n in FIELD_TABLE
    {
    }
    forall n | n in FIELD_TABLE
      ensures n in FIELD_ORDER
    {
    }
  }

  /** Validating fields in sequence succeeds exactly when each field does,
      and then yields each field's own outcome. */
  lemma {:induction false} ValidateFieldsSpec(values: map<string, Json>, names: seq<string>)
    requires forall n | n in names :: n in FIELD_TABLE
    ensures ValidateFields(values, names).Some? <==> forall n | n in names :: FieldOutcome(values, n).Some?
    ensures ValidateFields(values, names).Some? ==>
      && (forall n | n in ValidateFields(values, names).value :: n in names)
      && forall n | n in names ::
           n in ValidateFields(values, names).value && FieldOutcome(values, n) == Some(ValidateFields(values, names).value[n])
  {
    if names != [] {
      ValidateFieldsSpec(values, names[1..]);
      assert forall n | n in names :: n == names[0] || n in names[1..];
    }
  }

  /** A record is built exactly when `id` is a string and every field of the
      table is valid. */
  lemma ValidateAccepts(values: map<string, Json>)
    ensures Validate(values).Ok? <==>
      (match Lookup(values, "id", "id_") case Some(JStr(_)) => true case _ => false)
      && forall n | n in FIELD_TABLE :: FieldOutcome(values, n).Some?
  {
    FieldOrderIsTheTable();
    ValidateFieldsSpec(values, FIELD_ORDER);
  }

  /** A built record holds every field, each with the outcome of that field
      alone, and so has the declared type. */
  lemma ValidatedFields(values: map<string, Json>)
    requires Validate(values).Ok?
    ensures WellTyped(Validate(values).value)
    ensures forall n | n in FIELD_TABLE ::
      n in Validate(values).value.fields && FieldOutcome(values, n) == Some(Validate(values).value.fields[n])
  {
    FieldOrderIsTheTable();
    ValidateFieldsSpec(values, FIELD_ORDER);
    var fields := Validate(values).value.fields;
    assert fields == ValidateFields(values, FIELD_ORDER).value;
    assert fields.Keys == FIELD_TABLE.Keys;
    forall n | n in FIELD_TABLE ensures HasType(fields[n], FIELD_TABLE[n].ftype) {
      assert FieldOutcome(values, n) == Some(fields[n]);
    }
  }

  /** A field present in the input has the outcome of validating that input. */
  lemma PresentOutcome(values: map<string, Json>, n: string, v: Json)
    requires n in FIELD_TABLE && Lookup(values, FIELD_TABLE[n].alias, n) == Some(v)
    ensures FieldOutcome(values, n) == ValidateField(FIELD_TABLE[n].ftype, v)
  {
  }

  /** `ValidatedFields` for one field. */
  lemma ValidatedField(values: map<string, Json>, n: string)
    requires Validate(values).Ok? && n in FIELD_TABLE
    ensures WellTyped(Validate(values).value)
    ensures n in Validate(values).value.fields && FieldOutcome(values, n) == Some(Validate(values).value.fields[n])
  {
    ValidatedFields(values);
  }

  /** Both halves of what `NotionPropertyValues(**values)` checks and builds. */
  lemma ValidateSpec(values: map<string, Json>)
    ensures Validate(values).Ok? <==>
      (match Lookup(values, "id", "id_") case Some(JStr(_)) => true case _ => false)
      && forall n | n in FIELD_TABLE :: FieldOutcome(values, n).Some?
    ensures Validate(values).Ok? ==> WellTyped(Validate(values).value)
    ensures Validate(values).Ok? ==>
      forall n | n in FIELD_TABLE :: Validate(values).value.fields[n] == FieldOutcome(values, n).value
  {
    ValidateAccepts(values);
    if Validate(values).Ok? {
      ValidatedFields(values);
    }
  }

  /** A field depends on its own input only: two accumulators with the same
      input for field `n` give records with the same value for it. */
  lemma SameInputSameField(a: map<string, Json>, b: map<string, Json>, n: string)
    requires n in FIELD_TABLE && Validate(a).Ok? && Validate(b).Ok?
    requires Lookup(a, FIELD_TABLE[n].alias, n) == Lookup(b, FIELD_TABLE[n].alias, n)
    ensures n in Validate(a).value.fields && n in Validate(b).value.fields
    ensures Validate(a).value.fields[n] == Validate(b).value.fields[n]
  {
    ValidateSpec(a);
    ValidateSpec(b);
  }

  /** A field absent under both its alias and its name takes its default:
      `None` for select, date, number and text fields, `[]` for rich text,
      title and people. */
  lemma AbsentFieldsTakeDefaults(values: map<string, Json>, n: string)
    requires n in FIELD_TABLE && Validate(values).Ok?
    requires FIELD_TABLE[n].alias !in values && n !in values
    ensures n in Validate(values).value.fields
    ensures var v := Validate(values).value.fields[n];
      match FIELD_TABLE[n].ftype
      case SelectOrNone => v == SelectV(None)
      case RichTextList => v == RichTextV([])
      case DateOrNone(_) => v == DateV(None)
      case FloatOrNone => v == FloatV(None)
      case StrOrNone => v == StrV(None)
      case DictList => v == DictListV([])
  {
    ValidateSpec(values);
  }

  /** The select/status validator: whatever a select field holds once present
      (`null`, a raw option dict, anything) it becomes `SelectValue()`, whose
      id, name and color are all `None`; and it can never fail. */
  lemma SelectInputIsReplaced(values: map<string, Json>, n: string)
    requires n in FIELD_TABLE && FIELD_TABLE[n].ftype == SelectOrNone
    requires FIELD_TABLE[n].alias in values || n in values
    ensures FieldOutcome(values, n) == Some(SelectV(Some(SelectValue(None, None, None))))
  {
  }

  /** The date validator covers exactly date_appel_booke, date_appel_propose
      and date_relance; there any present input becomes `DateValue()`. */
  lemma CoercedDateInputIsReplaced(values: map<string, Json>, n: string)
    requires n in FIELD_TABLE && FIELD_TABLE[n].ftype.DateOrNone?
    requires FIELD_TABLE[n].alias in values || n in values
    ensures FIELD_TABLE[n].ftype.coerced <==> n in {"date_appel_booke", "date_appel_propose", "date_relance"}
    ensures FIELD_TABLE[n].ftype.coerced ==> FieldOutcome(values, n) == Some(DateV(Some(DateValue(None, None, None))))
  {
  }

  /** date_prise_contact and date_reponse_prospect are not coerced: a date
      dict whose `start` is an ISO date keeps that start. */
  lemma UncoercedDateKeepsStart(values: map<string, Json>, n: string, m: map<string, Json>, s: string)
    requires n == "date_prise_contact" || n == "date_reponse_prospect"
    requires Lookup(values, FIELD_TABLE[n].alias, n) == Some(JObj(m))
    requires Get(m, "start") == JStr(s) && ParseIsoDate(s).Some?
    requires Validate(values).Ok?
    ensures ParseDateValue(m).Some? && n in Validate(values).value.fields
    ensures Validate(values).value.fields[n] == DateV(Some(DateValue(ParseIsoDate(s), ParseDateValue(m).value.end, ParseDateValue(m).value.time_zone)))
  {
    DateFieldKinds();
    ValidatedFields(values);
    assert FieldOutcome(values, n) == ValidateField(DateOrNone(false), JObj(m));
  }

  /** `id` is required and must be a string. */
  lemma IdIsRequired(values: map<string, Json>)
    requires "id" !in values && "id_" !in values
    ensures Validate(values) == Err(ValidationError)
  {
  }

  /** A rich-text element without plain_text, text, type or annotations (or
      one that is not a dict) makes the whole record invalid. */
  lemma RichTextElementNeedsRequiredKeys(values: map<string, Json>, n: string, items: seq<Json>, i: int)
    requires n in FIELD_TABLE && FIELD_TABLE[n].ftype == RichTextList
    requires Lookup(values, FIELD_TABLE[n].alias, n) == Some(JArr(items))
    requires 0 <= i < |items| && !(items[i].JObj? && HasRequiredRichTextKeys(items[i].fields))
    ensures Validate(values) == Err(ValidationError)
  {
    ParseRichTextsSpec(items);
    ValidateSpec(values);
  }

  /** `DataSourceInfos(**d)`: both `id` (by its alias only: this model is not
      configured with `populate_by_name`) and `name` must be strings. */
  function ValidateDataSourceInfos(d: map<string, Json>): (r: Result<DataSourceInfos>)
    ensures r.Ok? <==> "id" in d && d["id"].JStr? && "name" in d && d["name"].JStr?
    ensures r.Ok? ==> d["id"] == JStr(r.value.id_) && d["name"] == JStr(r.value.name)
  {
    if "id" in d && d["id"].JStr? && "name" in d && d["name"].JStr? then
      Ok(DataSourceInfos(d["id"].s, d["name"].s))
    else Err(ValidationError)
  }

  // ---------------------------------------------------------------------
  // The declared table schema

  /** The polars column types the schema uses (`pl.Date` is a day count). */
  datatype ColumnType = Utf8 | Date32 | Float64 | ListUtf8

  /** A table schema: column name to declared type. Python's dict keeps the
      declaration order, which fixes only the column order of the batch and
      not its content; it is not modelled. */
  type Schema = map<string, ColumnType>

  /** `SCHEMA_POLARS`. */
  const SCHEMA_POLARS: Schema := map[
    "id" := Utf8,
    "activite_source_pharow" := Utf8,
    "departement" := Utf8,
    "en_croissance" := Utf8,
    "genre" := Utf8,
    "niveau_hierachique" := Utf8,
    "priorite" := Utf8,
    "reponse_setting" := Utf8,
    "show" := Utf8,
    "sous_departement" := Utf8,
    "tranche_effectif_corrigee" := Utf8,
    "type_de_setting" := Utf8,
    "etat" := Utf8,
    "adresse_siege_complete" := Utf8,
    "chiffre_affaires_simplifie" := Utf8,
    "nom" := Utf8,
    "nom_entreprise" := Utf8,
    "poste_occupe" := Utf8,
    "prenom" := Utf8,
    "ville_residence" := Utf8,
    "nom_du_projet" := Utf8,
    "date_appel_booke" := Date32,
    "date_appel_propose" := Date32,
    "date_prise_contact" := Date32,
    "date_relance" := Date32,
    "date_reponse_prospect" := Date32,
    "budget" := Float64,
    "email_pro" := Utf8,
    "telephone" := Utf8,
    "url_site_internet" := Utf8,
    "url_linkedin" := Utf8,
    "personne_assignee" := ListUtf8
  ]

  /** The columns of a schema declared with type `t`. */
  function ColumnsOfType(schema: Schema, t: ColumnType): (cs: set<string>)
    ensures forall c :: c in cs <==> c in schema && schema[c] == t
  {
    set c | c in schema && schema[c] == t
  }

  /** The column type a field's flattened value is stored under. */
  function StoredType(t: FieldType): ColumnType {
    match t
    case DateOrNone(_) => Date32
    case FloatOrNone => Float64
    case DictList => ListUtf8
    case _ => Utf8
  }

  /** The five date fields and which of them the date validator coerces. */
  lemma DateFieldKinds()
    ensures "date_appel_booke" in FIELD_TABLE && FIELD_TABLE["date_appel_booke"].ftype == DateOrNone(true)
    ensures "date_appel_propose" in FIELD_TABLE && FIELD_TABLE["date_appel_propose"].ftype == DateOrNone(true)
    ensures "date_relance" in FIELD_TABLE && FIELD_TABLE["date_relance"].ftype == DateOrNone(true)
    ensures "date_prise_contact" in FIELD_TABLE && FIELD_TABLE["date_prise_contact"].ftype == DateOrNone(false)
    ensures "date_reponse_prospect" in FIELD_TABLE && FIELD_TABLE["date_reponse_prospect"].ftype == DateOrNone(false)
  {
  }

  /** The people field. */
  lemma PeopleFieldKind()
    ensures "personne_assignee" in FIELD_TABLE && FIELD_TABLE["personne_assignee"].ftype == DictList
  {
  }

  /** The budget field, of alias "Budget". */
  lemma BudgetFieldKind()
    ensures "budget" in FIELD_TABLE && FIELD_TABLE["budget"] == Field("Budget", FloatOrNone)
  {
  }

  /** `id_` is not in the field table: its column is named `id`, which no
      field uses. */
  lemma IdIsNotAField()
    ensures "id" !in FIELD_TABLE
  {
  }

  /** The schema declares `id` and exactly the record's fields. */
  lemma SchemaCoversRecord()
    ensures SCHEMA_POLARS.Keys == {"id"} + FIELD_TABLE.Keys
    ensures SCHEMA_POLARS["id"] == Utf8
  {
    forall c | c in FIELD_TABLE
      ensures c in SCHEMA_POLARS
    {
    }
    forall c | c in SCHEMA_POLARS
      ensures c == "id" || c in FIELD_TABLE
    {
    }
    assert SCHEMA_POLARS.Keys == {"id"} + FIELD_TABLE.Keys;
  }

  /** The schema stores each field under the type its flattened value has. */
  lemma SchemaTypesFollowFields()
    ensures forall n | n in FIELD_TABLE :: n in SCHEMA_POLARS && SCHEMA_POLARS[n] == StoredType(FIELD_TABLE[n].ftype)
  {
    forall n | n in FIELD_TABLE
      ensures n in SCHEMA_POLARS && SCHEMA_POLARS[n] == StoredType(FIELD_TABLE[n].ftype)
    {
      var t := FIELD_TABLE[n].ftype;
      assert n in SCHEMA_POLARS;
    }
  }

  /** The schema's date columns: exactly the five date fields. */
  lemma SchemaDateColumns()
    ensures ColumnsOfType(SCHEMA_POLARS, Date32) ==
      {"date_appel_booke", "date_appel_propose", "date_prise_contact", "date_relance", "date_reponse_prospect"}
  {
    var dates := {"date_appel_booke", "date_appel_propose", "date_prise_contact", "date_relance", "date_reponse_prospect"};
    forall c | c in SCHEMA_POLARS && SCHEMA_POLARS[c] == Date32
      ensures c in dates
    {
    }
    forall c | c in dates
      ensures c in SCHEMA_POLARS && SCHEMA_POLARS[c] == Date32
    {
    }
    assert ColumnsOfType(SCHEMA_POLARS, Date32) == dates;
  }

  /** budget alone is Float64 and personne_assignee alone a list of strings. */
  lemma SchemaNumberAndListColumns()
    ensures ColumnsOfType(SCHEMA_POLARS, Float64) == {"budget"}
    ensures ColumnsOfType(SCHEMA_POLARS, ListUtf8) == {"personne_assignee"}
  {
    forall c | c in SCHEMA_POLARS && SCHEMA_POLARS[c] == Float64
      ensures c == "budget"
    {
    }
    forall c | c in SCHEMA_POLARS && SCHEMA_POLARS[c] == ListUtf8
      ensures c == "personne_assignee"
    {
    }
    assert ColumnsOfType(SCHEMA_POLARS, Float64) == {"budget"};
    assert ColumnsOfType(SCHEMA_POLARS, ListUtf8) == {"personne_assignee"};
  }

  /** Every other column, `id` among them, is Utf8. */
  lemma SchemaTextColumns()
    ensures ColumnsOfType(SCHEMA_POLARS, Utf8) == SCHEMA_POLARS.Keys -
      {"date_appel_booke", "date_appel_propose", "date_prise_contact", "date_relance", "date_reponse_prospect",
       "budget", "personne_assignee"}
  {
    var others := {"date_appel_booke", "date_appel_propose", "date_prise_contact", "date_relance",
                   "date_reponse_prospect", "budget", "personne_assignee"};
    forall c | c in SCHEMA_POLARS && c !in others
      ensures SCHEMA_POLARS[c] == Utf8
    {
    }
    forall c | c in others
      ensures c in SCHEMA_POLARS && SCHEMA_POLARS[c] != Utf8
    {
    }
    assert ColumnsOfType(SCHEMA_POLARS, Utf8) == SCHEMA_POLARS.Keys - others;
  }
}
