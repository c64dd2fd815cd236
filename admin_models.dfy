/** api/routes/admin/models.py: the in-memory table of AI model
    configurations behind the admin model routes. */
module AdminModels {

  import opened Common
  import opened PyText

  /** One row of `MODELS_DB`. */
  datatype ModelEntry = ModelEntry(
    id: string,
    name: string,
    provider: string,
    deploymentName: Option<string>,
    status: string,
    createdAt: string)

  /** The request body `ModelConfig`; only the name, provider and deployment
      name reach the table. */
  datatype ModelConfig = ModelConfig(
    name: string,
    provider: string,
    deploymentName: Option<string>,
    apiKey: Option<string>,
    endpoint: Option<string>,
    maxTokens: int,
    temperature: real)

  /** The fixed creation time every row carries. */
  const CreatedAt: string := "2024-01-01T00:00:00Z"

  /** The two rows the table starts with. */
  const Seed: seq<ModelEntry> := [
    ModelEntry("1", "GPT-4", "azure", Some("gpt-4"), "active", CreatedAt),
    ModelEntry("2", "GPT-3.5 Turbo", "azure", Some("gpt-35-turbo"), "active", CreatedAt)]

  /** `get_model`: the first row with the id, else 404 "Model not found". */
  function FindModel(models: seq<ModelEntry>, id: string): (r: HttpResult<ModelEntry>)
    ensures r.Ok? ==> r.value in models && r.value.id == id
    ensures r.HttpError? ==> r == HttpError(404, "Model not found") && forall m :: m in models ==> m.id != id
  {
    if models == [] then HttpError(404, "Model not found")
    else if models[0].id == id then Ok(models[0])
    else FindModel(models[1..], id)
  }

  /** The row found is the first one with the id. */
  lemma {:induction false} FindModelFirst(models: seq<ModelEntry>, id: string, i: nat)
    requires i < |models| && models[i].id == id
    ensures FindModel(models, id).Ok?
    ensures exists k :: (0 <= k <= i && models[k] == FindModel(models, id).value
      && forall j :: 0 <= j < k ==> models[j].id != id)
  {
    if models[0].id != id {
      FindModelFirst(models[1..], id, i - 1);
      var k :| 0 <= k <= i - 1 && models[1..][k] == FindModel(models, id).value
        && forall j :: 0 <= j < k ==> models[1..][j].id != id;
      assert models[k + 1] == models[1..][k];
      forall j | 0 <= j < k + 1
        ensures models[j].id != id
      {
        if j > 0 {
          assert models[j] == models[1..][j - 1];
        }
      }
    }
  }

  /** The row `create_model` adds to a table of `count` rows: id
      `str(count + 1)`, status `active`. */
  function NewEntry(count: nat, config: ModelConfig): ModelEntry {
    ModelEntry(NatToString(count + 1), config.name, config.provider, config.deploymentName, "active", CreatedAt)
  }

  /** The table after `delete_model`: the rows with another id, in order. */
  function Without(models: seq<ModelEntry>, id: string): (r: seq<ModelEntry>)
    ensures |r| <= |models|
    ensures forall m :: m in r <==> m in models && m.id != id
  {
    if models == [] then []
    else (if models[0].id != id then [models[0]] else []) + Without(models[1..], id)
  }

  /** The providers `list_providers` offers: id and display name. */
  datatype Provider = Provider(id: string, name: string)

  /** The response body of `list_models`. */
  datatype ModelList = ModelList(success: bool, models: seq<ModelEntry>)

  /** `MODELS_DB` and the handlers that read and change it. */
  class ModelRegistry {
    var models: seq<ModelEntry>

    /** The table as the module defines it. */
    constructor()
      ensures models == Seed
    {
      models := Seed;
    }

    /** `list_models`: success and the whole table. */
    method ListModels() returns (r: ModelList)
      ensures r == ModelList(true, models)
    {
      r := ModelList(true, models);
    }

    /** `get_model` */
    method GetModel(id: string) returns (r: HttpResult<ModelEntry>)
      ensures r == FindModel(models, id)
    {
      r := FindModel(models, id);
    }

    /** `create_model`: one row appended, with id one more than the table's
        length and status `active`; the earlier rows are untouched and no
        check is made that the id is free. */
    method CreateModel(config: ModelConfig) returns (created: ModelEntry)
      modifies this
      ensures created == NewEntry(|old(models)|, config)
      ensures models == old(models) + [created]
    {
      created := ModelEntry(NatToString(|models| + 1), config.name, config.provider, config.deploymentName, "active", CreatedAt);
      models := models + [created];
    }

    /** `delete_model`: every row with the id is dropped, the rest keep their
        order, and the answer is success whether or not a row matched. */
    method DeleteModel(id: string) returns (message: string)
      modifies this
      ensures models == Without(old(models), id)
      ensures message == "Model deleted"
    {
      models := Without(models, id);
      message := "Model deleted";
    }

    /** `list_providers` */
    function ListProviders(): (r: seq<Provider>)
      ensures |r| == 3 && r[0].id == "azure" && r[1].id == "openai" && r[2].id == "anthropic"
    {
      [Provider("azure", "Azure OpenAI"), Provider("openai", "OpenAI"), Provider("anthropic", "Anthropic Claude")]
    }
  }

  /** The table starts with the active models "1" (GPT-4) and "2"
      (GPT-3.5 Turbo), both on Azure. */
  lemma SeedLookup()
    ensures FindModel(Seed, "1") == Ok(Seed[0]) && Seed[0].name == "GPT-4"
    ensures FindModel(Seed, "2") == Ok(Seed[1]) && Seed[1].name == "GPT-3.5 Turbo"
    ensures forall i :: 0 <= i < |Seed| ==> Seed[i].status == "active" && Seed[i].provider == "azure"
    ensures FindModel(Seed, "3").HttpError?
  {
    assert Seed[1..][0] == Seed[1];
  }

  /** After a delete no row has the id, every other id is found as before,
      and deleting again changes nothing. */
  lemma DeleteShape(models: seq<ModelEntry>, id: string, other: string)
    requires other != id
    ensures FindModel(Without(models, id), id) == HttpError(404, "Model not found")
    ensures FindModel(Without(models, id), other) == FindModel(models, other)
    ensures Without(Without(models, id), id) == Without(models, id)
  {
    WithoutFind(models, id, other);
    WithoutIdempotent(models, id);
  }

  lemma {:induction false} WithoutFind(models: seq<ModelEntry>, id: string, other: string)
    requires other != id
    ensures FindModel(Without(models, id), other) == FindModel(models, other)
  {
    if models != [] {
      var rest := Without(models[1..], id);
      WithoutFind(models[1..], id, other);
      if models[0].id != id {
        var w := [models[0]] + rest;
        assert Without(models, id) == w;
        assert w[0] == models[0] && w[1..] == rest;
      } else {
        assert Without(models, id) == [] + rest == rest;
      }
    }
  }

  lemma {:induction false} WithoutIdempotent(models: seq<ModelEntry>, id: string)
    ensures Without(Without(models, id), id) == Without(models, id)
  {
    if models != [] {
      var rest := Without(models[1..], id);
      WithoutIdempotent(models[1..], id);
      if models[0].id != id {
        var w := [models[0]] + rest;
        assert Without(models, id) == w;
        assert w[0] == models[0] && w[1..] == rest;
        assert Without(w, id) == [models[0]] + Without(rest, id);
      } else {
        assert Without(models, id) == [] + rest == rest;
      }
    }
  }

  /** A created row is found by its id unless an earlier row already has
      that id, in which case the earlier row shadows it. */
  lemma CreateThenGet(models: seq<ModelEntry>, config: ModelConfig)
    ensures var e := NewEntry(|models|, config);
      FindModel(models + [e], e.id) == (if FindModel(models, e.id).Ok? then FindModel(models, e.id) else Ok(e))
  {
    var e := NewEntry(|models|, config);
    FindSnoc(models, e, e.id);
  }

  lemma {:induction false} FindSnoc(models: seq<ModelEntry>, e: ModelEntry, id: string)
    requires e.id == id
    ensures FindModel(models + [e], id) == (if FindModel(models, id).Ok? then FindModel(models, id) else Ok(e))
  {
    if models != [] {
      assert (models + [e])[1..] == models[1..] + [e];
      FindSnoc(models[1..], e, id);
    }
  }

  /** Ids collide after a delete: from the initial table, deleting "1" and
      creating a model gives a second row with id "2", and `get_model("2")`
      still answers with GPT-3.5 Turbo. */
  lemma IdCollision(config: ModelConfig)
    ensures var after := Without(Seed, "1");
      var table := after + [NewEntry(|after|, config)];
      table[0].id == "2" && table[1].id == "2"
      && FindModel(table, "2") == Ok(Seed[1])
  {
    assert Without(Seed, "1") == [Seed[1]] by {
      assert Seed[1..][1..] == [];
    }
    assert NatToString(2) == "2";
  }
}
