/** The lead table store and `write_to_deltalake`: a batch of flat rows is
    checked against a schema, then either written as a new table or merged
    into the existing one on `id`, update-only. The store is a map from a
    table location to the table held there; a table is its current content
    (rows keyed by id) and the earlier versions its log still retains. */
module DeltaLake {
  import opened Common
  import opened LeadModel
  import opened Normalisation

  /** Rows keyed by their id. */
  type Content = map<string, Row>

  /** A stored table: its current content and the superseded versions whose
      files are still on disk. */
  datatype Table = Table(content: Content, retained: seq<Content>)

  /** Which branch the write took. */
  datatype Outcome = Created | Merged

  /** `Path(__file__).parents[2] / "data_leads"`, the table the backend writes. */
  const BACKEND_TABLE_PATH := "backend/data_leads"

  /** `Path(__file__).parents[1] / "leads_data"`, the table the script writes. */
  const SCRIPT_TABLE_PATH := "leads_data"

  /** The schema written inline in the script's `write_to_deltalake`. */
  const SCRIPT_SCHEMA: Schema := map[
    "id" := Utf8,
    "activite_source_pharow" := Utf8,
    "departement" := Utf8,
    "en_croissance" := Utf8,
    "genre" := Utf8,
    "niveau_hierachique" := Utf8,
    "priorite" := Utf8,
    "reponse_setting" := Utf8,
    "show" := Utf8,
    "sous_departement" := Utf8,
    "tranche_effectif_corrigee" := Utf8,
    "type_de_setting" := Utf8,
    "etat" := Utf8,
    "adresse_siege_complete" := Utf8,
    "chiffre_affaires_simplifie" := Utf8,
    "nom" := Utf8,
    "nom_entreprise" := Utf8,
    "poste_occupe" := Utf8,
    "prenom" := Utf8,
    "ville_residence" := Utf8,
    "nom_du_projet" := Utf8,
    "date_appel_booke" := Date32,
    "date_appel_propose" := Date32,
    "date_prise_contact" := Date32,
    "date_relance" := Date32,
    "date_reponse_prospect" := Date32,
    "budget" := Float64,
    "email_pro" := Utf8,
    "telephone" := Utf8,
    "url_site_internet" := Utf8,
    "url_linkedin" := Utf8,
    "personne_assignee" := ListUtf8
  ]

  /** Both copies of the pipeline declare the same schema. */
  lemma ScriptSchemaIsSchemaPolars()
    ensures SCRIPT_SCHEMA == SCHEMA_POLARS
  {
    assert SCRIPT_SCHEMA.Keys == SCHEMA_POLARS.Keys by {
      assert forall c | c in SCRIPT_SCHEMA :: c in SCHEMA_POLARS;
      assert forall c | c in SCHEMA_POLARS :: c in SCRIPT_SCHEMA;
    }
  }

  // ---------------------------------------------------------------------
  // The batch

  /** Every row has a string id and no two rows share one. */
  predicate DistinctIds(batch: seq<Row>) {
    (forall i | 0 <= i < |batch| :: "id" in batch[i] && batch[i]["id"].Text?)
    && forall i, j | 0 <= i < j < |batch| :: batch[i]["id"] != batch[j]["id"]
  }

  /** `pl.from_dicts(rows, schema_overrides=schema)` succeeds: every cell is
      in a declared column and fits its type. */
  predicate BatchFits(batch: seq<Row>, schema: Schema) {
    forall i, c | 0 <= i < |batch| && c in batch[i] :: c in schema && Fits(batch[i][c], schema[c])
  }

  /** Each row's id points at it within the content; update-all keeps ids. */
  predicate KeyedById(content: Content) {
    forall k | k in content :: "id" in content[k] && content[k]["id"] == Text(k)
  }

  /** The batch as content. */
  function BatchContent(batch: seq<Row>): (c: Content)
    requires DistinctIds(batch)
    ensures KeyedById(c)
  {
    map i | 0 <= i < |batch| :: batch[i]["id"].s := batch[i]
  }

  /** The batch content holds every row under its id and nothing else. */
  lemma BatchContentSpec(batch: seq<Row>)
    requires DistinctIds(batch)
    ensures forall k :: k in BatchContent(batch) <==> exists i | 0 <= i < |batch| :: batch[i]["id"] == Text(k)
    ensures forall i | 0 <= i < |batch| :: BatchContent(batch)[batch[i]["id"].s] == batch[i]
  {
    var c := BatchContent(batch);
    forall k | k in c
      ensures exists i | 0 <= i < |batch| :: batch[i]["id"] == Text(k)
    {
      var i :| 0 <= i < |batch| && batch[i]["id"].s == k;
      assert batch[i]["id"] == Text(k);
    }
    forall i | 0 <= i < |batch|
      ensures c[batch[i]["id"].s] == batch[i]
    {
      assert batch[i]["id"].s in c;
    }
  }

  // ---------------------------------------------------------------------
  // Merge, compaction and vacuum

  /** `merge(predicate="target.id = source.id").when_matched_update_all(
      except_cols=["id"])`: a target row whose id some source row has takes
      that row's cells for every column but `id`; no source row is
      inserted, no target row removed. */
  function Merge(target: Content, source: Content): Content {
    map k | k in target :: if k in source then target[k] + (source[k] - {"id"}) else target[k]
  }

  /** The merge commits a new version; the previous content stays on disk. */
  function MergeTable(t: Table, source: Content): (r: Table)
    ensures r.retained == t.retained + [t.content]
  {
    Table(Merge(t.content, source), t.retained + [t.content])
  }

  /** `optimize.compact()` rewrites the files of the current version into
      fewer files as a new version. */
  function Compact(t: Table): (r: Table)
    ensures r.retained == t.retained + [t.content]
  {
    Table(t.content, t.retained + [t.content])
  }

  /** `vacuum(retention_hours=0, enforce_retention_duration=False)` deletes
      every file the current version does not use. */
  function Vacuum(t: Table): (r: Table)
    ensures r.retained == []
  {
    Table(t.content, [])
  }

  /** The store after writing `source` at `path`. */
  function Written(tables: map<string, Table>, path: string, source: Content): map<string, Table> {
    if path !in tables then tables[path := Table(source, [])]
    else tables[path := Vacuum(Compact(MergeTable(tables[path], source)))]
  }

  // ---------------------------------------------------------------------
  // The store

  class DeltaStorage {
    var tables: map<string, Table>

    predicate Valid()
      reads this
    {
      forall p | p in tables :: KeyedById(tables[p].content)
    }

    constructor ()
      ensures tables == map[] && Valid()
    {
      tables := map[];
    }

    /** The create-or-merge state machine shared by both copies of
        `write_to_deltalake`, at the location they fix. */
    method Upsert(batch: seq<Row>, schema: Schema, path: string) returns (r: Result<Outcome>)
      requires Valid() && DistinctIds(batch)
      modifies this
      ensures Valid()
      ensures r.Err? <==> !BatchFits(batch, schema)
      ensures r.Err? ==> r.error == SchemaMismatch && tables == old(tables)
      ensures r.Ok? ==> tables == Written(old(tables), path, BatchContent(batch))
      ensures r == Ok(Created) <==> BatchFits(batch, schema) && path !in old(tables)
    {
      if !BatchFits(batch, schema) {
        return Err(SchemaMismatch);
      }
      var source := BatchContent(batch);
      if path !in tables {
        tables := tables[path := Table(source, [])];
        return Ok(Created);
      }
      var dt := tables[path];
      dt := MergeTable(dt, source);
      dt := Compact(dt);
      dt := Vacuum(dt);
      MergeKeepsIds(tables[path].content, source);
      tables := tables[path := dt];
      r := Ok(Merged);
    }

    /** The backend's `write_to_deltalake`: the location argument is
        overwritten with the backend table path before use. */
    method WriteToDeltaLake(valuesNormalise: seq<Row>, schema: Schema, pathTableDeltalake: string)
      returns (r: Result<Outcome>)
      requires Valid() && DistinctIds(valuesNormalise)
      modifies this
      ensures Valid()
      ensures r.Err? <==> !BatchFits(valuesNormalise, schema)
      ensures r.Err? ==> tables == old(tables)
      ensures r.Ok? ==> tables == Written(old(tables), BACKEND_TABLE_PATH, BatchContent(valuesNormalise))
    {
      var path := BACKEND_TABLE_PATH;
      r := Upsert(valuesNormalise, schema, path);
    }

    /** The script's `write_to_deltalake`, with its inline schema and its
        own table path. */
    method WriteToDeltaLakeScript(valuesNormalise: seq<Row>) returns (r: Result<Outcome>)
      requires Valid() && DistinctIds(valuesNormalise)
      modifies this
      ensures Valid()
      ensures r.Err? <==> !BatchFits(valuesNormalise, SCHEMA_POLARS)
      ensures r.Err? ==> tables == old(tables)
      ensures r.Ok? ==> tables == Written(old(tables), SCRIPT_TABLE_PATH, BatchContent(valuesNormalise))
    {
      ScriptSchemaIsSchemaPolars();
      r := Upsert(valuesNormalise, SCRIPT_SCHEMA, SCRIPT_TABLE_PATH);
    }
  }

  // ---------------------------------------------------------------------
  // Properties of the write

  /** A merge keeps every row keyed by its own id. */
  lemma MergeKeepsIds(target: Content, source: Content)
    requires KeyedById(target)
    ensures KeyedById(Merge(target, source))
  {
  }

  /** Update-only: the merged content has exactly the target's ids. */
  lemma MergeKeepsKeys(target: Content, source: Content)
    ensures Merge(target, source).Keys == target.Keys
  {
  }

  /** A matched row takes every non-id column of its source row, keeps its id
      and keeps the columns the source row does not carry. */
  lemma MergeMatchedRow(target: Content, source: Content, k: string)
    requires k in target && k in source
    ensures var row := Merge(target, source)[k];
      row.Keys == target[k].Keys + (source[k].Keys - {"id"})
      && (forall c | c in source[k] && c != "id" :: row[c] == source[k][c])
      && (forall c | c in target[k] && c !in source[k] :: row[c] == target[k][c])
      && ("id" in target[k] ==> row["id"] == target[k]["id"])
  {
  }

  /** An unmatched target row is left as it was. */
  lemma MergeUnmatchedRow(target: Content, source: Content, k: string)
    requires k in target && k !in source
    ensures Merge(target, source)[k] == target[k]
  {
  }

  /** Merging the same source twice gives the content of merging it once. */
  lemma MergeIdempotent(target: Content, source: Content)
    ensures Merge(Merge(target, source), source) == Merge(target, source)
  {
    var once := Merge(target, source);
    forall k | k in once
      ensures Merge(once, source)[k] == once[k]
    {
      if k in source {
        assert Merge(once, source)[k] == once[k] + (source[k] - {"id"});
        assert once[k] + (source[k] - {"id"}) == once[k];
      }
    }
  }

  /** When the source is the table's own content, the merge changes nothing. */
  lemma MergeWithItself(content: Content)
    requires KeyedById(content)
    ensures Merge(content, content) == content
  {
    forall k | k in content
      ensures Merge(content, content)[k] == content[k]
    {
      assert content[k] + (content[k] - {"id"}) == content[k];
    }
  }

  /** Compaction and vacuum change the files, not the content. */
  lemma CompactAndVacuumKeepContent(t: Table)
    ensures Compact(t).content == t.content && Vacuum(t).content == t.content
    ensures Vacuum(Compact(t)) == Table(t.content, [])
  {
  }

  /** Writing to an absent location stores exactly the batch, with no
      history; writing to a present one leaves no previous version behind. */
  lemma WrittenStates(tables: map<string, Table>, path: string, source: Content)
    ensures path in Written(tables, path, source)
    ensures Written(tables, path, source).Keys == tables.Keys + {path}
    ensures forall p | p in tables && p != path :: Written(tables, path, source)[p] == tables[p]
    ensures path !in tables ==> Written(tables, path, source)[path] == Table(source, [])
    ensures path in tables ==>
      Written(tables, path, source)[path] == Table(Merge(tables[path].content, source), [])
  {
  }

  /** Re-running the same batch leaves the content the first run left. */
  lemma RewriteIdempotent(tables: map<string, Table>, path: string, source: Content)
    requires KeyedById(source)
    ensures Written(Written(tables, path, source), path, source)[path].content
         == Written(tables, path, source)[path].content
  {
    if path in tables {
      MergeIdempotent(tables[path].content, source);
    } else {
      MergeWithItself(source);
    }
  }

  /** Every stored table is keyed by id, so writing any stored table's own
      content back at its location leaves that content as it was. */
  lemma StoredContentRewriteKeepsContent(store: DeltaStorage, path: string)
    requires store.Valid() && path in store.tables
    ensures Written(store.tables, path, store.tables[path].content)[path].content == store.tables[path].content
  {
    MergeWithItself(store.tables[path].content);
  }

  /** The rows `normalise_data` produces fit the declared schema, provided
      each assigned person's `id` is a string or missing. */
  lemma NormalisedBatchFits(recs: seq<NotionPropertyValues>)
    requires forall i | 0 <= i < |recs| :: WellTyped(recs[i])
    requires forall i | 0 <= i < |recs| :: PeopleIdsAreText(recs[i])
    ensures BatchFits(seq(|recs|, i requires 0 <= i < |recs| => NormaliseRecord(recs[i])), SCHEMA_POLARS)
  {
    var rows := seq(|recs|, i requires 0 <= i < |recs| => NormaliseRecord(recs[i]));
    forall i | 0 <= i < |recs|
      ensures forall c | c in rows[i] :: c in SCHEMA_POLARS && Fits(rows[i][c], SCHEMA_POLARS[c])
    {
      RowFitsSchema(recs[i]);
    }
  }
}
