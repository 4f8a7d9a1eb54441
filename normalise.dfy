/** Flattening validated lead records into rows of the declared table: one
    cell per column of the schema, each field by the rule of its kind. */
module Normalisation {
  import opened Common
  import opened Dates
  import opened LeadModel

  /** One cell of a flat row: Python's `None`, a string, a date, a float, or
      the list of people ids (each whatever `p.get("id")` returned). */
  datatype Cell = Null | Text(s: string) | Day(date: Date) | Float(x: real) | Ids(ids: seq<Json>)

  /** A flat row: column name to cell. */
  type Row = map<string, Cell>

  /** Whether a cell can be stored in a column of type `t`; `None` fits every
      column, a list of ids fits `List(Utf8)` when each id is a string or `None`. */
  predicate Fits(c: Cell, t: ColumnType) {
    match c
    case Null => true
    case Text(_) => t == Utf8
    case Day(_) => t == Date32
    case Float(_) => t == Float64
    case Ids(ids) => t == ListUtf8 && forall i | 0 <= i < |ids| :: ids[i].JNull? || ids[i].JStr?
  }

  /** `[p.get("id") for p in people]`. */
  function PeopleIds(people: seq<map<string, Json>>): (ids: seq<Json>)
    ensures |ids| == |people|
    ensures forall i | 0 <= i < |people| :: ids[i] == Get(people[i], "id")
  {
    if people == [] then [] else [Get(people[0], "id")] + PeopleIds(people[1..])
  }

  /** The column value `normalise_data` writes for one field:
      select/status `x.name if x else None` (a `SelectValue` is always
      truthy, so only `None` counts as absent), rich text and title
      `x[0].plain_text if x else None`, dates `x.start if x else None`, number
      and text fields as they are, people the list of their ids (`[]` when
      there are none). */
  function Flatten(v: FieldValue): Cell {
    match v
    case SelectV(s) => if s.Some? && s.value.name.Some? then Text(s.value.name.value) else Null
    case RichTextV(runs) => if runs != [] then Text(runs[0].plain_text) else Null
    case DateV(d) => if d.Some? && d.value.start.Some? then Day(d.value.start.value) else Null
    case FloatV(x) => if x.Some? then Float(x.value) else Null
    case StrV(t) => if t.Some? then Text(t.value) else Null
    case DictListV(people) => Ids(PeopleIds(people))
  }

  /** The dictionary `normalise_data` builds for one record. */
  function NormaliseRecord(rec: NotionPropertyValues): Row
  {
    (map n | n in rec.fields :: Flatten(rec.fields[n]))["id" := Text(rec.id_)]
  }

  /** `normalise_data`: one fresh dictionary per record, appended in order. */
  method NormaliseData(recs: seq<NotionPropertyValues>) returns (rows: seq<Row>)
    ensures |rows| == |recs|
    ensures forall i | 0 <= i < |recs| :: rows[i] == NormaliseRecord(recs[i])
  {
    rows := [];
    var i := 0;
    while i < |recs|
      invariant 0 <= i <= |recs|
      invariant |rows| == i
      invariant forall j | 0 <= j < i :: rows[j] == NormaliseRecord(recs[j])
    {
      var row := NormaliseRecord(recs[i]);
      rows := rows + [row];
      i := i + 1;
    }
  }

  // ---------------------------------------------------------------------
  // Properties of a normalised row

  /** Every row has exactly the columns of the declared schema, and `id` is
      the record's id. */
  lemma RowShape(rec: NotionPropertyValues)
    requires WellTyped(rec)
    ensures NormaliseRecord(rec).Keys == SCHEMA_POLARS.Keys
    ensures NormaliseRecord(rec)["id"] == Text(rec.id_)
    ensures forall n | n in FIELD_TABLE :: NormaliseRecord(rec)[n] == Flatten(rec.fields[n])
  {
    SchemaCoversRecord();
    IdIsNotAField();
  }

  /** The column of field `n` holds that field, flattened. */
  lemma CellOf(rec: NotionPropertyValues, n: string)
    requires n in rec.fields && n != "id"
    ensures n in NormaliseRecord(rec) && NormaliseRecord(rec)[n] == Flatten(rec.fields[n])
  {
  }

  /** Each assigned person's `id` is a string or missing, as the `List(Utf8)`
      column needs. */
  predicate PeopleIdsAreText(rec: NotionPropertyValues) {
    forall n | n in rec.fields && rec.fields[n].DictListV? ::
      forall i | 0 <= i < |rec.fields[n].dicts| ::
        Get(rec.fields[n].dicts[i], "id").JNull? || Get(rec.fields[n].dicts[i], "id").JStr?
  }

  /** Every cell fits its declared column type, provided each assigned
      person's `id` is a string or missing. */
  lemma RowFitsSchema(rec: NotionPropertyValues)
    requires WellTyped(rec)
    requires PeopleIdsAreText(rec)
    ensures forall c | c in NormaliseRecord(rec) :: c in SCHEMA_POLARS && Fits(NormaliseRecord(rec)[c], SCHEMA_POLARS[c])
  {
    RowShape(rec);
    SchemaTypesFollowFields();
    var row := NormaliseRecord(rec);
    forall c | c in row
      ensures c in SCHEMA_POLARS && Fits(row[c], SCHEMA_POLARS[c])
    {
      if c == "id" {
        SchemaCoversRecord();
        assert row[c] == Text(rec.id_);
      } else {
        assert c in FIELD_TABLE;
        var t := FIELD_TABLE[c].ftype;
        FlattenFits(rec.fields[c], t);
        assert SCHEMA_POLARS[c] == StoredType(t);
        assert row[c] == Flatten(rec.fields[c]);
      }
    }
  }

  /** A value of a field's type flattens to a cell of the field's column type. */
  lemma FlattenFits(v: FieldValue, t: FieldType)
    requires HasType(v, t)
    requires v.DictListV? ==> forall i | 0 <= i < |v.dicts| :: Get(v.dicts[i], "id").JNull? || Get(v.dicts[i], "id").JStr?
    ensures Fits(Flatten(v), StoredType(t))
  {
  }

  /** The rule of each kind of field: when its cell is `None`, and what the
      cell holds otherwise. */
  lemma FlattenRules(v: FieldValue)
    ensures v.SelectV? ==> (Flatten(v) == Null <==> v.select.None? || v.select.value.name.None?)
    ensures v.SelectV? && v.select.Some? && v.select.value.name.Some? ==> Flatten(v) == Text(v.select.value.name.value)
    ensures v.RichTextV? ==> (Flatten(v) == Null <==> v.runs == [])
    ensures v.RichTextV? && v.runs != [] ==> Flatten(v) == Text(v.runs[0].plain_text)
    ensures v.DateV? ==> (Flatten(v) == Null <==> v.date.None? || v.date.value.start.None?)
    ensures v.DateV? && v.date.Some? && v.date.value.start.Some? ==> Flatten(v) == Day(v.date.value.start.value)
    ensures v.FloatV? ==> (Flatten(v) == Null <==> v.number.None?)
    ensures v.FloatV? && v.number.Some? ==> Flatten(v) == Float(v.number.value)
    ensures v.StrV? ==> (Flatten(v) == Null <==> v.text.None?)
    ensures v.StrV? && v.text.Some? ==> Flatten(v) == Text(v.text.value)
    ensures v.DictListV? ==> Flatten(v) == Ids(PeopleIds(v.dicts))
  {
  }

  /** Rich text and title keep their first run's text and drop the others. */
  lemma FirstRunOnly(runs: seq<RichText>, more: seq<RichText>)
    requires runs != []
    ensures Flatten(RichTextV(runs + more)) == Flatten(RichTextV(runs)) == Text(runs[0].plain_text)
  {
  }

  // ---------------------------------------------------------------------
  // What validation leaves for normalisation

  /** The column of a field of a validated record is that field's outcome,
      flattened. */
  lemma ColumnOfOutcome(values: map<string, Json>, n: string, v: FieldValue)
    requires Validate(values).Ok? && n in FIELD_TABLE && FieldOutcome(values, n) == Some(v)
    ensures WellTyped(Validate(values).value)
    ensures NormaliseRecord(Validate(values).value)[n] == Flatten(v)
  {
    ValidatedField(values, n);
    IdIsNotAField();
    CellOf(Validate(values).value, n);
  }

  /** Every select/status column of a validated record is `None`: absent
      fields default to `None`, and present ones were replaced by
      `SelectValue()`, whose name is `None`. */
  lemma SelectColumnsAlwaysNull(values: map<string, Json>, n: string)
    requires Validate(values).Ok? && n in FIELD_TABLE && FIELD_TABLE[n].ftype == SelectOrNone
    ensures WellTyped(Validate(values).value)
    ensures NormaliseRecord(Validate(values).value)[n] == Null
  {
    ValidatedFields(values);
    var rec := Validate(values).value;
    assert rec.fields[n] == SelectV(None) || rec.fields[n] == SelectV(Some(EMPTY_SELECT)) by {
      assert FieldOutcome(values, n) == Some(rec.fields[n]);
    }
    IdIsNotAField();
    CellOf(rec, n);
  }

  /** The same holds for the three coerced date columns: `DateValue()` has
      no start. */
  lemma CoercedDateColumnsAlwaysNull(values: map<string, Json>, n: string)
    requires Validate(values).Ok?
    requires n == "date_appel_booke" || n == "date_appel_propose" || n == "date_relance"
    ensures WellTyped(Validate(values).value)
    ensures NormaliseRecord(Validate(values).value)[n] == Null
  {
    ValidatedFields(values);
    DateFieldKinds();
    var rec := Validate(values).value;
    assert rec.fields[n] == DateV(None) || rec.fields[n] == DateV(Some(EMPTY_DATE)) by {
      assert FieldOutcome(values, n) == Some(rec.fields[n]);
    }
    CellOf(rec, n);
  }

  /** The two uncoerced date columns carry the parsed start date, and the
      stored date prints back as the ISO text it was read from. */
  lemma UncoercedDateColumnKeepsStart(values: map<string, Json>, n: string, m: map<string, Json>, s: string)
    requires n == "date_prise_contact" || n == "date_reponse_prospect"
    requires Lookup(values, FIELD_TABLE[n].alias, n) == Some(JObj(m))
    requires Get(m, "start") == JStr(s) && ParseIsoDate(s).Some?
    requires Validate(values).Ok?
    ensures WellTyped(Validate(values).value)
    ensures NormaliseRecord(Validate(values).value)[n] == Day(ParseIsoDate(s).value)
    ensures FormatIsoDate(NormaliseRecord(Validate(values).value)[n].date) == s
  {
    ValidatedFields(values);
    UncoercedDateKeepsStart(values, n, m, s);
    CellOf(Validate(values).value, n);
    FormatParse(s);
  }

  /** A text field (email, phone, the two URLs) given a string stores that
      string. */
  lemma TextColumnKeepsInput(values: map<string, Json>, n: string, s: string)
    requires n in FIELD_TABLE && FIELD_TABLE[n].ftype == StrOrNone
    requires Lookup(values, FIELD_TABLE[n].alias, n) == Some(JStr(s))
    requires Validate(values).Ok?
    ensures WellTyped(Validate(values).value)
    ensures NormaliseRecord(Validate(values).value)[n] == Text(s)
  {
    PresentOutcome(values, n, JStr(s));
    ColumnOfOutcome(values, n, StrV(Some(s)));
  }

  /** `budget` given a number stores that number. */
  lemma BudgetColumnKeepsInput(values: map<string, Json>, x: real)
    requires Lookup(values, "Budget", "budget") == Some(JNum(x))
    requires Validate(values).Ok?
    ensures WellTyped(Validate(values).value)
    ensures NormaliseRecord(Validate(values).value)["budget"] == Float(x)
  {
    BudgetFieldKind();
    PresentOutcome(values, "budget", JNum(x));
    ColumnOfOutcome(values, "budget", FloatV(Some(x)));
  }

  /** A rich-text or title field stores the `plain_text` of the first
      element of its input list, or `None` when the list is empty. */
  lemma RichTextColumnKeepsFirstText(values: map<string, Json>, n: string, items: seq<Json>)
    requires n in FIELD_TABLE && FIELD_TABLE[n].ftype == RichTextList
    requires Lookup(values, FIELD_TABLE[n].alias, n) == Some(JArr(items))
    requires Validate(values).Ok?
    ensures WellTyped(Validate(values).value)
    ensures items == [] ==> NormaliseRecord(Validate(values).value)[n] == Null
    ensures items != [] ==>
      && items[0].JObj? && "plain_text" in items[0].fields && items[0].fields["plain_text"].JStr?
      && NormaliseRecord(Validate(values).value)[n] == Text(items[0].fields["plain_text"].s)
  {
    ValidatedField(values, n);
    ParseRichTextsSpec(items);
    IdIsNotAField();
    CellOf(Validate(values).value, n);
  }

  /** The people column lists the `id` of every person, in order, and is
      never `None`, whatever the people's dictionaries hold. */
  lemma PeopleColumnListsIds(rec: NotionPropertyValues)
    requires WellTyped(rec)
    ensures rec.fields["personne_assignee"].DictListV?
    ensures var c := NormaliseRecord(rec)["personne_assignee"];
      var people := rec.fields["personne_assignee"].dicts;
      c.Ids? && |c.ids| == |people| && forall i | 0 <= i < |people| :: c.ids[i] == Get(people[i], "id")
  {
    PeopleFieldKind();
    CellOf(rec, "personne_assignee");
  }
}
